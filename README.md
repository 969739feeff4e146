# cppwatch — a verified model of the run-decision core

cppwatch watches a C/C++ source tree. When a relevant file changes it restarts a
two-step run (a build command, then a test command) under the watchexec process
supervisor. It records each step's start and stop time. Each finished run goes as a
`Success` or `Fail` outcome over a bounded queue to a reporter, which keeps pass/fail
counters and per-step duration totals and renders a report and a desktop notification.

This project models that core in Dafny, one module per source file:

- `Events` (`src/event.rs`): clock readings and durations, as nanoseconds.
  - `StepData` and its saturating `GetDuration`.
  - `ExecutorEvent`.
  - The outcome queue, a class `Channel`: a FIFO of capacity 16 whose `TrySend` fails when the queue is full.
- `Filters` (`src/filters.rs`):
  - watchexec's event tags as a datatype;
  - the per-event predicates `is_process_report`, `is_file_modification`, `is_cpp_file` and `is_stop_signal`;
  - the two event filters.
- `Watcher` (`src/watcher.rs`):
  - configuration helpers: build directory resolution, command parsing and the step count;
  - the run context as a class `Context`, whose methods update its fields in place;
  - the function that reads a process verdict from an event's tags;
  - the `on_update` handler. It is a loop that folds a batch of events into a stop flag, a change flag and a combined verdict, then decides by priority.
  - `StartStep` and `FinishStep` are proved against pure transition functions over a `RunState` value (`Started`, `Finished`). The properties of the run protocol are proved about those functions. The helpers `OnSuccess`, `OnFail` and `TakeSteps` state their effect on the fields directly; `Reset` is proved against `ResetState`.
- `RunProperties` (`src/watcher.rs`): lemmas about the run protocol.
  - Single-transition facts.
  - Whole build-and-test scenarios.
  - An invariant that holds along every sequence of pre-spawn and verdict calls:
    - run ids are strictly increasing and never reused;
    - steps are named by position;
    - when the step count is positive, a run never counts as many completions as it has steps.
- `Reporter` (`src/reporter.rs`):
  - the aggregator as a class `Context` with counters and a duration history;
  - the average and ratio queries;
  - the ratio colour band as an enum;
  - the duration delta;
  - the per-step report values and the notification's text.
- `Cli` (`src/main.rs`): `read_delay`, including Rust's `u64` parsing rules. An optional leading `+` is accepted, and the value must fit in 64 bits.
- `Strings`, `Wrappers`: splitting and joining on a separator, decimal rendering and parsing, and `Option`.
- `Scenarios`: concrete runs driven through the classes. Examples:
  - a build and test that both pass;
  - a failing test;
  - a change during a run, which is coalesced;
  - the report and the notification for a passing run.

The clock (`Instant::now()`) is a parameter of every operation that reads it. A
verdict and a batch of events are inputs. watchexec's outcomes (`Exit`, `Stop`,
`Clear`, `Start`, `Sleep`, `if_running`, `sequence`) are plain constructors whose
execution belongs to the supervisor.

The code of `on_update` counts any `Path` tag as a change (`event.paths().count() > 0`,
`src/watcher.rs:198`). It does not re-check the path's relevance, and the model follows the code.
Which events reach the handler at all is the filters' job.

## Model

| member | source | states |
|---|---|---|
| Events.StepData.GetDuration | src/event.rs:23-25 | the duration is stop minus start. It is zero when the stop time is not after the start time, as `Instant` subtraction saturates |
| Events.Channel.constructor | src/event.rs:18-20 | a new outcome queue is empty |
| Events.Channel.TrySend | src/event.rs:18-20 | a send succeeds exactly when fewer than 16 outcomes are undelivered, and then appends the outcome. A failed send leaves the queue unchanged |
| Events.Channel.Recv | src/event.rs:18-20 | a receive yields the oldest undelivered outcome and removes it, so outcomes come out in send order. An empty queue yields none |
| Filters.IsProcessReport | src/filters.rs:15-22 | true iff some tag is a process completion, whatever its payload |
| Filters.IsFileModification | src/filters.rs:24-35 | true iff some tag is a data modification or a creation |
| Filters.OtherKindsAreNotModifications | src/filters.rs:24-35 | an event none of whose kind tags is a creation or a data modification is not a modification, whatever its other tags. So a single tag of any other kind (any, access, removal, metadata, rename, any or other modification, other) never counts |
| Filters.Extension | src/filters.rs:40-45 | the text after the last dot of a UTF-8 path. It is a dot-free suffix preceded by a dot when shorter than the path. A non-UTF-8 path gives the empty string |
| Filters.ExtensionAfterLastDot | src/filters.rs:40-45 | for any stem, the extension of stem + "." + e is e whenever e has no dot |
| Filters.DotFreeExtension | src/filters.rs:40-45 | a path without a dot is compared as a whole |
| Filters.ExtensionExamples | src/filters.rs:40-46 | "src/main.cpp" gives "cpp", "archive.tar.gz" gives "gz", and "notes." gives "" |
| Filters.IsCppFile | src/filters.rs:37-52 | true iff some path tag's extension is one of c, h, cpp, hpp, cc and hh |
| Filters.CppPathByExtension | src/filters.rs:37-52 | a single-path event is a C/C++ file iff its extension is in the list. The match is case-sensitive, so "CPP" is refused |
| Filters.NonUtf8NeverMatches | src/filters.rs:37-52 | an event whose paths are all non-UTF-8 is never a C/C++ file |
| Filters.IsStopSignal | src/filters.rs:54-56 | true exactly for interrupt and terminate: false for hangup, kill, quit, the two user signals and any custom signal |
| Filters.ExtensionsFilterAccepts | src/filters.rs:58-63 | accepts iff some tag is a process completion, or some tag is a creation or data modification and some (possibly other) tag is a UTF-8 path with a C/C++ extension |
| Filters.ModificationFilterAccepts | src/filters.rs:66-71 | accepts iff some tag is a process completion, a creation or a data modification |
| Filters.ExtensionsFilterNarrower | src/filters.rs:58-71 | every event the extensions filter accepts is also accepted by the modification filter |
| Filters.SeparateTagsSuffice | src/filters.rs:58-63 | for example, the extensions filter accepts the event of a creation tag and a separate `a.h` path tag (the general form is `ExtensionsFilterAccepts`) |
| Watcher.GetBuildDir | src/watcher.rs:27-39 | an empty build dir gives the watch dir. A build dir starting with '/' is returned unchanged. Otherwise the result is watch dir + "/" + build dir |
| Watcher.BuildDirResolution | src/watcher.rs:27-39 | the configured build dir is always a suffix of the resolved one. An absolute watch dir gives an absolute result |
| Watcher.ParseCommand | src/watcher.rs:158-167 | parsing never fails, even on the empty string. Joining the program and arguments with single spaces gives back the input exactly, and no part contains a space |
| Watcher.ParseWrittenCommand | src/watcher.rs:158-167 | parsing a program and space-free arguments written out with single spaces gives back that program and those arguments |
| Watcher.GetCommands | src/watcher.rs:41-47 | there are always two commands: the build command parsed, then the test command parsed. So joining each gives back its command line |
| Watcher.StepsLimit | src/watcher.rs:60-61 | the step count is the number of non-empty commands among build and test: at most 2. It is 0 iff both are empty and 2 iff both are non-empty |
| Watcher.EmptyTestCommandStillRuns | src/watcher.rs:41-47 | a configuration with an empty test command still yields a second command, `Exec("", [])`, while a run has only one step |
| Watcher.ConfiguredCommands | src/watcher.rs:41-47 | one command per non-empty command line, as many as a run has steps, each agreeing with the command parsed from its line |
| Watcher.StepName | src/watcher.rs:72-79 | position 0 is named "Build", position 1 "Test", and every later position "Unknown"; `Context.GetStepName` applies it to the current number of steps |
| Watcher.Started | src/watcher.rs:81-93 | exactly one step is appended, named by the old length, and the old steps are kept. The new step starts and stops at now, is not passed, and has zero duration. The run id grows by one only when no run was in flight; completions and step count are unchanged |
| Watcher.Finished | src/watcher.rs:95-129 | the run id and step count never change. A verdict with no run in flight changes nothing. A failure always sends. Whatever is sent carries the run id, is `Success` iff the verdict passed, and leaves the context empty |
| Watcher.InvPreserved | src/watcher.rs:95-121 | starting and finishing a step keep the run invariant: the step count is at most 2, and when it is positive the completions seen stay below it |
| Watcher.Context.constructor | src/watcher.rs:59-70 | a new context has no steps, run id 0, no completions and the configured step count |
| Watcher.Context.StartStep | src/watcher.rs:81-93 | the new state is `Started(old state, now)`, whose meaning `Watcher.Started` states |
| Watcher.Context.FinishStep | src/watcher.rs:95-111 | the state and the queue change as `Finished(old state, status, now)` prescribes. When the queue is full the send fails, which the source turns into a panic |
| Watcher.Context.OnSuccess | src/watcher.rs:113-121 | below the step count nothing changes and nothing is sent. At the step count, `Success(run id, steps)` is sent and the context is emptied |
| Watcher.Context.OnFail | src/watcher.rs:123-129 | `Fail(run id, steps)` is sent, the steps are handed over and the completion count restarts. The run id is kept |
| Watcher.Context.TakeSteps | src/watcher.rs:131-135 | returns the old steps and leaves the buffer empty |
| Watcher.Context.Reset | src/watcher.rs:137-140 | clears steps and completions and leaves the run id alone: the new state is `ResetState(old state)` |
| Watcher.CommandResult | src/watcher.rs:143-156 | the verdict comes from the first completion tag only. It is present iff that tag has an end, and passing iff that end is a success |
| Watcher.FirstCompletionDecides | src/watcher.rs:143-156 | for any tags before it that are not completions and any tags after it, a first completion without an end gives no verdict, even if a later completion has one. A leading completion with any end decides, whatever follows: it passes iff the end is a success, so every other end fails. Any tag list without a completion tag gives no verdict |
| Watcher.HasStopSignal | src/watcher.rs:197 | true iff some tag is an interrupt or terminate signal |
| Watcher.HasPath | src/watcher.rs:198 | true iff some tag is a path, of any extension |
| Watcher.Summarize | src/watcher.rs:196-203 | the fold over the batch, event by event; its meaning is stated by Watcher.SummarizeMeaning |
| Watcher.SummarizeStop | src/watcher.rs:196-197 | the batch's stop flag is set iff some event carries a stop signal |
| Watcher.SummarizeMods | src/watcher.rs:196-198 | the batch's change flag is set iff some event carries a path |
| Watcher.SummarizeStatus | src/watcher.rs:199-202 | the combined verdict is absent iff no event has one, and failing iff some event's verdict fails. It is the AND of the present verdicts |
| Watcher.SummarizeMeaning | src/watcher.rs:196-203 | the three batch facts together, event by event |
| Watcher.SummarizeBatch | src/watcher.rs:196-203 | the handler's loop computes exactly the batch fold |
| Watcher.Decide | src/watcher.rs:205-227 | `Exit` iff a stop is seen. Otherwise a change gives if-running(DoNothing, restart sequence). Only with neither is a step finished, with the batch verdict, and `Stop` is set iff that verdict fails; a passing verdict sets no outcome. Without a verdict nothing is set |
| Watcher.StopTakesPriority | src/watcher.rs:205-206 | a stop signal anywhere in a batch gives `Exit` and finishes no step, whatever else the batch holds |
| Watcher.PathChangeRestarts | src/watcher.rs:207-220 | without a stop signal, a path change gives if-running(DoNothing, Clear[, Sleep(delay)], Start) and finishes no step |
| Watcher.VerdictFinishesStep | src/watcher.rs:221-227 | with neither a stop nor a change, the combined verdict finishes the step. It finishes none iff no event has a verdict. A failing verdict also sets `Stop` |
| Watcher.MixedVerdictsFail | src/watcher.rs:199-202 | the batch of exactly one passing and one failing completion fails the step and stops the process (the general rule is `VerdictFinishesStep` with `SummarizeStatus`) |
| Watcher.StopBeatsModification | src/watcher.rs:205-207 | a C/C++ modification together with an interrupt or a terminate signal, in another event or in the same one, exits and never restarts |
| Watcher.OnUpdate | src/watcher.rs:187-230 | the outcome set is the one `Decide` picks for the batch fold. When a verdict is picked, the context changes as `finish_step` prescribes; otherwise the context and the queue are unchanged |
| RunProperties.FinishWithoutRunIsIgnored | src/watcher.rs:95-98 | a verdict with no run in flight changes nothing and sends nothing |
| RunProperties.FailFinalisesRun | src/watcher.rs:95-129 | a failing verdict stamps the current step failed at now and sends one `Fail` with all steps and the run id. It empties the context and keeps the run id |
| RunProperties.SuccessFinalisesOnlyAtLimit | src/watcher.rs:105-121 | a passing verdict stamps the current step passed at now, leaving the other steps as they were, and counts it. It sends iff it completes the last step, and then sends `Success` with the stamped steps and empties the context. Otherwise the stamped steps stay in flight |
| RunProperties.BuildAndTestPass | src/watcher.rs:81-121 | start build, pass, start test, pass: a single `Success`, sent on the second verdict, with both steps stamped passed and timed. The context ends empty under the next run id |
| RunProperties.TestFailureFailsRun | src/watcher.rs:95-129 | build passes, then test fails: one `Fail` holding both steps, the test marked failed, and no `Success` |
| RunProperties.ApplyKeepsHistory | src/watcher.rs:81-121 | one more start or verdict keeps the history invariant of state and sent outcomes |
| RunProperties.ReplayKeepsHistory | src/watcher.rs:81-140 | from a new context, along any sequence of calls: sent run ids are strictly increasing and never reused, steps are named by position, and when the step count is positive the completions stay below it |
| RunProperties.RunIdMonotone | src/watcher.rs:81-84 | along any sequence of calls the run id never decreases, and grows by at most one per call |
| Reporter.Context.constructor | src/reporter.rs:27-33 | a new aggregator has no passes, no failures and no history |
| Reporter.Context.Update | src/reporter.rs:35-55 | `Success` adds one pass and `Fail` one failure. Only `Success` accumulates its steps into the history |
| Reporter.Accumulate | src/reporter.rs:44-54 | adding a run's steps never removes an entry; see Reporter.AccumulateTotals for the entries and totals |
| Reporter.AccumulateTotals | src/reporter.rs:44-54 | after accumulating, a name has an entry iff it had one or some step bears it. Its total is the old total plus the durations of the steps bearing that name |
| Reporter.MaxOne | src/reporter.rs:58 | the divisor is at least 1 and equals the count when the count is positive |
| Reporter.Context.GetDurationAvg | src/reporter.rs:57-63 | no average for an unknown name. Otherwise it is a whole number of ms: the floor of the total in ms over the pass count (at least 1). With at most one pass it equals the total truncated to ms |
| Reporter.AverageOverRuns | src/reporter.rs:57-63 | truncating the total to ms and then dividing by the passes equals dividing the total by passes-many ms |
| Reporter.Context.GetRatio | src/reporter.rs:65-68 | the floor of 100 times passes over all runs (at least 1). It is 0 with no runs, never above 100, and never in the Invalid band |
| Reporter.RatioToColor | src/reporter.rs:87-94 | 0-49 is red, 50-79 yellow, 80-100 green, each showing the ratio. Anything above 100 is Invalid |
| Reporter.StatusAsStr | src/reporter.rs:71-76 | the text is "done" iff the run passed and "failed" iff it failed |
| Reporter.GetIconName | src/reporter.rs:104-110 | the icon is "emblem-checked" iff the run passed and "emblem-error" iff it failed |
| Reporter.StatusTextsDistinct | src/reporter.rs:71-110 | true maps to "done" and "emblem-checked", false to "failed" and "emblem-error". The two outcomes differ in both |
| Reporter.DurationDiffAsMillis | src/reporter.rs:96-102 | the delta is non-negative when current exceeds expected and non-positive otherwise. It is positive iff current exceeds expected by at least 1 ms, and its magnitude is the difference truncated to ms |
| Reporter.DiffRecoversDuration | src/reporter.rs:96-102 | expected plus the delta in ms lies within 1 ms of current |
| Reporter.Context.StepReportOf | src/reporter.rs:136-152 | a step's report shows its duration in ms, its average (0 when the name has no history) and the delta between the two |
| Reporter.Context.PrintReport | src/reporter.rs:136-165 | the report shows the run id and one line per step, each `StepReportOf` that step in the current statistics. It shows the pass ratio in its colour band (never Invalid), the passes over all runs, and the status text |
| Reporter.ShowNotification | src/reporter.rs:167-189 | summary "CppWatch", the status icon and a 3000 ms timeout. The body is "Build {id} {done/failed} after {N} sec.", where N is the whole seconds of the sum of the step durations |
| Reporter.Context.ProcessEvent | src/reporter.rs:191-196 | the aggregator is updated first. The report is then read from the updated statistics, so after a passing run every one of its step names has an entry and its averages include this run. The notification has every field `ShowNotification` gives |
| Cli.ReadDelay | src/main.rs:29-35 | the empty string gives no delay. A delay that is given fits in 64 bits and comes from a string of digits with at most a leading '+' |
| Cli.ParseU64 | src/main.rs:33 | a parsed value comes from a non-empty string and fits in 64 bits. A non-empty digit string, leading zeros allowed, parses as the number it denotes when that fits in 64 bits, and fails otherwise |
| Cli.ReadDelayOfNumber | src/main.rs:29-35 | the decimal rendering of any `u64`, with or without a leading '+', reads back as that many seconds |
| Cli.ReadDelayOverflows | src/main.rs:33 | a number of 2^64 or more gives no delay, also when written with a leading zero |
| Cli.ReadDelayOfDigits | src/main.rs:29-35 | any non-empty digit string, leading zeros allowed, with or without a '+', gives the number it denotes in seconds when that fits in 64 bits, and no delay otherwise |
| Cli.LeadingZeroIgnored | src/main.rs:33 | a leading zero never changes the delay read from a digit string |
| Cli.LeadingZeroDelays | src/main.rs:33 | "007" gives 7 s and "+00" gives 0 s |
| Cli.ReadDelayRejects | src/main.rs:33 | any character that is not a digit, other than a single leading '+', gives no delay |
| Cli.ReadDelayExamples | src/main.rs:33 | "-1", " 5", "5 " and "+" give no delay |
| Cli.DelayDefaults | src/main.rs:25-35 | the empty string gives no delay. The default "0" gives a delay of 0 s, so the restart sequence is Clear, Sleep(0), Start rather than Clear, Start |

## Left out

- `watcher::run`, `on_start`, `Watchexec::new` and `main`: runtime wiring into an external library. The pre-spawn hook appears only as a call to `StartStep`; its `current_dir` and 100 ms sleep are not modelled.
- `Arc<Mutex<…>>`, `tokio::spawn`, `tokio::join!` and the reporter's receive loop: concurrency. Calls are modelled as sequential, each holding the lock for its whole duration.
- `check_dirs` and `is_dir_exists`: filesystem I/O.
- `Instant::now()`: the clock.
  - Every operation that reads it takes the reading as a parameter.
  - Readings and durations are nanoseconds as unbounded naturals, so `Duration` addition cannot overflow.
- `print_step_report`, `print_line`, `print_report` and the `colored` styling: the terminal output itself.
  - `print_report` is modelled as `Reporter.Context.PrintReport`, which returns the values printed instead of printing them.
  - The values come from `StepReportOf`, `GetRatio`, `RatioToColor` and `StatusAsStr`.
  - Column padding, text layout and colours are not modelled.
- `Notification::show()`: the desktop notification transport. Only the notification's fields are modelled.
- The `clap` argument parsing in `Args`. Only the delay option's default, "0", is kept.
- watchexec's semantics for the outcomes it executes. They are opaque constructors.
- The `Result<bool, RuntimeError>` of the two filters: always `Ok`, so it is modelled as a plain verdict.
- Tag payloads the core never reads, or their exact types. Examples: a path's file type and a process id's width. The codes of `ExitError`, `ExitStop` and `Exception` are kept as plain integers, without their non-zero integer types.
- Watcher.Context.FinishStep: when the queue is full, `try_send(..).unwrap()` panics.
  - The model returns `sendOk == false`.
  - The state is the one just before the panic: the steps have already been taken out, so the step list is empty, and the completion counter is incremented.
  - The run invariant is promised only when the send succeeds.
- Events.Channel.TrySend: a closed receiver is not modelled; only a full queue makes a send fail.
- Events.Channel.Recv: an empty queue yields `None` instead of awaiting.
- Reporter.Context.Update: `pass_total` and `fail_total` are unbounded, so their `u64` overflow is not modelled.
- Watcher.Context.StartStep: `task_num` is unbounded, so its `u64` overflow is not modelled.
- Reporter.DurationDiffAsMillis: the `as i64` cast of the millisecond count is unbounded, so its wrap-around above 2^63 ms is not modelled.
- Watcher.Config: the queue's sending end is kept in `Context.tx` beside the configuration, not inside it.

## Findings

| source | as written | input that shows it | evidently intended | confidence | as-written member | corrected member |
|---|---|---|---|---|---|---|
| src/watcher.rs:41-47 | `parse_command` never returns `None`, so `get_commands` always pushes a second command, even for an empty test command | build command "make", test command "": the commands are `make` and `Exec("", [])`, while `steps_limit` is 1 | one command per non-empty command line, as many as a run has steps | medium, not executed | Watcher.EmptyTestCommandStillRuns | Watcher.ConfiguredCommands |
