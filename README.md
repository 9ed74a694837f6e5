# minitarp, modelled in Dafny

minitarp is a small ptrace-based coverage tool for Rust test executables. It
forks, and the child pins itself to the current CPU and `execve`s the test
binary. The parent sets a breakpoint at every configured address, then runs a
state machine over the child's `waitpid` statuses. When a breakpoint is hit
and processing it reports an update, every trace at that address gains one
hit; a failed or non-updating hit leaves the counts alone. SIGTRAP, SIGSTOP,
SIGSEGV and SIGILL stops, exits, the handled ptrace events and every executed
action are logged to a timeline that can be plotted; other stop signals,
`Signaled` statuses, unrecognised ptrace events, ptrace events with a signal
other than SIGTRAP and failed clone-data reads leave no event. The repository also has an
older event log with its own plot, and a Python script that runs the whole
program 1000 times and reports how often it failed.

This project models:

- the Linux tracer state machine of `src/statemachine/linux.rs` (module
  `PtraceStateMachine`, with shared value types in `Tracer`);
- its timeline of `src/statemachine/timeline.rs` (`EventTimeline`);
- the run setup of `src/lib.rs` (`Runner`);
- the plot bookkeeping of the older event log `src/timeline.rs` (`EventLog`);
- the counter of `failure_rate.py` (`FailureRate`).

`Decimal` renders integers the way `{}` formatting does, and `Wrappers` holds
`Option` and `Result`.

The tracer's data, `LinuxData`, is a class whose methods update its fields in
place: the wait queue, the current pid, the breakpoint map, the thread count,
the borrowed trace slice (an `array`) and the timeline (a class of its own). Each
method's contract gives the new state through specification functions
(`InsertAll`, `QueuedAll`, `ProcessAll`, `StopLog`, `StopVerdict`,
`ExecActions`, ...). The properties the source relies on are lemmas about those
functions: last deciding result wins, arrival order in the wait queue, hit
counters only grow, the fallback continue runs exactly when no action resumed a
tracee.

Syscalls are not executed. They become inputs:

- a `waitpid` result for `start`, and the sequence of `waitpid` results for `wait`;
- the `Breakpoint::new` results for `init`;
- a `Ptrace` value for the facts one `stop` call reads. It holds the
  instruction pointers, the clone-event data, what `Breakpoint::process`
  returns and which resume actions fail.

## Model

| member | source | states |
|---|---|---|
| Tracer.NewTrace | src/lib.rs:35-41 | a new trace records the given address and has no hits |
| Tracer.AsU64 | src/statemachine/linux.rs:394 | `as u64` keeps values in range and adds 2^64 to negative ones |
| Tracer.AsI32 | src/statemachine/linux.rs:335 | `as pid_t` yields a 32-bit signed value that agrees with its input in the low 32 bits, so values already in range are kept |
| EventTimeline.NewEvent | src/statemachine/timeline.rs:18-31 | the event carries the pid and description, no child or memory values, and the address pc-1, or i64::MIN when the pc cannot be read |
| EventTimeline.NewThread | src/statemachine/timeline.rs:33-42 | a thread event belongs to the parent, links to the child, keeps the address and is described as "New Thread <child>" |
| EventTimeline.Timeline.constructor | src/statemachine/timeline.rs:51-56 | a new timeline has no pids and no events, and its invariant holds |
| EventTimeline.Timeline.AddEvent | src/statemachine/timeline.rs:58-61 | appends exactly the given event, adds its pid, and keeps `pids` equal to the set of the events' pids |
| EventTimeline.IndicesWhere | src/statemachine/timeline.rs:71-76 | the positions of the events satisfying a predicate: all of them, in strictly increasing order |
| EventTimeline.PidSamples | src/statemachine/timeline.rs:70-76 | a pid's samples are exactly the positions of its events, in increasing order |
| EventTimeline.ChildLinks | src/statemachine/timeline.rs:96-101 | the link samples are exactly the positions of the events that have a child, in increasing order |
| EventTimeline.FirstOfPid | src/statemachine/timeline.rs:104-108 | the first position whose event has the pid; None when no event has it |
| EventTimeline.LinkEnd | src/statemachine/timeline.rs:104-109 | a link ends at the child's first event, or at the next position when the child has no event |
| PtraceStateMachine.InsertAllAborts | src/statemachine/linux.rs:86-111 | the instrumentation loop aborts exactly when some breakpoint failed for a reason other than an address clash, with the PIE message or the generic one |
| PtraceStateMachine.InsertAllKeys | src/statemachine/linux.rs:86-111 | when the loop does not abort, the map gains exactly the addresses of the created breakpoints, each mapped to a breakpoint of the current pid |
| PtraceStateMachine.FirstEnd | src/statemachine/linux.rs:126-157 | the position of the first waitpid result that stops the drain loop |
| PtraceStateMachine.QueuedPrefix | src/statemachine/linux.rs:126-148 | the statuses before the one that ends `wait` are all queued, in arrival order |
| PtraceStateMachine.QueuedInArrivalOrder | src/statemachine/linux.rs:126-157 | `wait` queues everything before the ending result in arrival order, and then that result only if it is an exit or a ptrace event |
| PtraceStateMachine.HandleSignaled | src/statemachine/linux.rs:426-438 | succeeds, continuing the pid, exactly for SIGTRAP with the flag set; otherwise the "Unexpected stop" error |
| PtraceStateMachine.PtraceEventEffects | src/statemachine/linux.rs:316-386 | the thread count changes only on a successful clone (+1) and on exit (-1); exec detaches; unknown events and other signals fail |
| PtraceStateMachine.CoverageOfCases | src/statemachine/linux.rs:388-424 | counts move only when the pc is readable, a breakpoint exists at pc-1 and processing it reported an update; an unreadable pc, no breakpoint at pc-1 or a failed `process` continues the thread; a processed hit that reports no update takes the action `process` returned |
| PtraceStateMachine.Bump | src/statemachine/linux.rs:412-418 | one hit adds one to every trace at the address and leaves the other traces unchanged |
| PtraceStateMachine.BumpTotal | src/statemachine/linux.rs:412-418 | one hit adds to the total exactly the number of traces at that address |
| PtraceStateMachine.StatusMapping | src/statemachine/linux.rs:192-248 | SIGSTOP continues the child; SIGSEGV and SIGILL are errors; other stop signals try to continue with no signal; SIGTRAP waits; the parent's exit ends with its code and another process's exit tries to continue the parent |
| PtraceStateMachine.OutcomesAt | src/statemachine/linux.rs:171-252 | `stop` takes one result per pending status, in order |
| PtraceStateMachine.ProcessAllCounts | src/statemachine/linux.rs:171-191 | while `stop` handles statuses, trace addresses never change and no hit counter or total ever goes down |
| PtraceStateMachine.StopSnoc | src/statemachine/linux.rs:253-262 | a waiting result keeps the verdict and any other result replaces it; every successful result adds its action |
| PtraceStateMachine.PendingStep | src/statemachine/linux.rs:171-262 | how the effects, the log, the verdict and the actions of `stop`'s first loop advance by one status |
| PtraceStateMachine.StopVerdictLastWins | src/statemachine/linux.rs:168-262 | `stop` yields waiting when every result waits; otherwise the verdict of the last result that errs or leaves the waiting state |
| PtraceStateMachine.ExecActionsStuck | src/statemachine/linux.rs:264-294 | once an action fails, no later action is executed |
| PtraceStateMachine.ExecActionsContinued | src/statemachine/linux.rs:264-298 | when no action fails, a tracee was resumed exactly when some action is not Nothing, so the fallback continue runs only when all are Nothing |
| PtraceStateMachine.LinuxData.constructor | src/statemachine/linux.rs:304-314 | empty queue, pids 0, no breakpoints, thread count 0, the given traces, an empty timeline |
| PtraceStateMachine.LinuxData.Start | src/statemachine/linux.rs:62-79 | StillAlive gives None and keeps `current`; a SIGTRAP stop sets `current` and gives Initialise; any other status or an error gives the matching TestRuntime error |
| PtraceStateMachine.LinuxData.Init | src/statemachine/linux.rs:82-121 | a trace_children error is returned unchanged; otherwise the breakpoint map and the result are those of the instrumentation loop, then Waiting or "Test didn't launch correctly" |
| PtraceStateMachine.LinuxData.Wait | src/statemachine/linux.rs:123-162 | the queue only grows, by the statuses up to the first ending result; an error gives the error message, otherwise Stopped if anything was queued and None if nothing was |
| PtraceStateMachine.LinuxData.HandlePtraceEvent | src/statemachine/linux.rs:316-386 | the result, the thread-count change and the logged events of one ptrace event |
| PtraceStateMachine.LinuxData.CollectCoverageData | src/statemachine/linux.rs:388-424 | always waiting, with the chosen action; the traces are bumped at pc-1 exactly when the hit was an update |
| PtraceStateMachine.LinuxData.HandleStatus | src/statemachine/linux.rs:171-252 | one pending status: its result, its effect on `current`, the thread count and the traces, and its timeline events; the queue, parent and breakpoints are unchanged |
| PtraceStateMachine.LinuxData.RunActions | src/statemachine/linux.rs:264-294 | executes the actions in order up to the first failure; reports whether a tracee was resumed and the failure |
| PtraceStateMachine.LinuxData.HandlePending | src/statemachine/linux.rs:166-263 | handles every pending status in order; the verdict and actions are the last-wins fold of their results |
| PtraceStateMachine.LinuxData.Stop | src/statemachine/linux.rs:164-300 | empties the queue, handles the old queue in order, executes the actions; a failed action's error, else the last-wins verdict; falls back to continuing the parent exactly when nothing failed and nothing resumed |
| PtraceStateMachine.CreateStateMachine | src/statemachine/linux.rs:11-15 | a fresh tracer in the start state whose parent is the test pid |
| Runner.CollectTraces | src/lib.rs:90-94 | one new trace per configured breakpoint, in the configured order |
| Runner.ReportedAddresses | src/lib.rs:115-117 | the printed address of each trace, 0 for one without an address |
| Runner.CollectTracesRoundTrip | src/lib.rs:90-94 | the traces report back exactly the configured addresses and start with no hits |
| Runner.Sanitise | src/lib.rs:98-101 | same length; every double quote becomes a single quote; every other character is kept |
| Runner.SanitiseProperties | src/lib.rs:98-101 | a sanitised message holds no double quote; sanitising twice changes nothing more; quote-free text is unchanged |
| Runner.RunSteps | src/lib.rs:96-112 | the loop stops at the first step that errs or is finished; every earlier step succeeded without finishing |
| Runner.CollectCoverage | src/lib.rs:89-119 | an error exactly when a step errs before any finishes, and then that step's own error, logged as its sanitised Debug text; otherwise "FINISHED" is logged |
| Runner.LockCpu | src/lib.rs:121-137 | of the 4096 mask bits, exactly the current CPU's is set; none is set when sched_getcpu fails or the CPU is out of range |
| Runner.ExecuteTest | src/lib.rs:140-158 | argv is the path alone; the environment is RUST_TEST_THREADS=1, each key=value in order, then RUST_BACKTRACE=1; a NUL in any of them panics |
| Runner.Run | src/lib.rs:71-87 | a missing binary gives TestDoesntExist without forking; otherwise the parent's coverage result, the child's exec result or ForkFail |
| EventLog.GetPid | src/timeline.rs:39-45 | trace events give their pid; config and binary launches give None |
| EventLog.PidSetMembers | src/timeline.rs:80-84 | the pid set holds exactly the pids that some event carries |
| EventLog.GeneratePalette | src/timeline.rs:63-75 | exactly `len` entries, the i-th hue at position i |
| EventLog.PickColour | src/timeline.rs:121-130 | a pid keeps its colour; a new pid takes and removes the first palette entry; black only when the palette is empty; earlier colours never change |
| EventLog.FirstSeenIsPidSet | src/timeline.rs:80-85 | the first-appearance order lists every distinct pid exactly once |
| EventLog.SaveGraphLayout | src/timeline.rs:78-157 | each line is drawn in its pid's colour; the k-th pid to appear gets the k-th of pids+1 hues, and none gets black; y_min is the least pid (pid_t::MAX if none); y_max is the greatest pid, or 0; width events*20, height max(pids*200, 100) |
| EventLog.LayoutFinal | src/timeline.rs:121-130 | once the whole log is seen, every pid has its first-appearance hue and none has black |
| EventLog.PaletteStep | src/timeline.rs:121-130 | the palette is never empty when a new pid appears, and the colouring invariant is kept |
| EventLog.RangeStep | src/timeline.rs:131-136 | one more event keeps y_min and y_max the least and greatest pids seen |
| FailureRate.NonZero | failure_rate.py:5-8 | the number of failed runs never exceeds the number of runs |
| FailureRate.CountFailures | failure_rate.py:3-10 | exactly 1000 runs; the count is the number of non-zero statuses; the line is "Failed <count>/1000 times" |
| FailureRate.NonZeroAppend | failure_rate.py:5-8 | failures over consecutive batches of runs add up |
| FailureRate.NonZeroNone | failure_rate.py:7-8 | no failures exactly when every status is zero |
| FailureRate.NonZeroAll | failure_rate.py:7-8 | the count equals the number of runs exactly when every status is non-zero |
| FailureRate.SummaryNamesCount | failure_rate.py:10 | the printed line starts "Failed ", ends "/1000 times", and the count can be read back from it |

## Left out

- `src/statemachine/mod.rs` is not part of this model. `TestState`, `TracerAction`, `step`, `is_finished`, `wait_state` and `start_state` are reconstructed from how `linux.rs` and `lib.rs` use them. The states' start-time payloads and timeouts are dropped. `is_finished` is taken to hold exactly for `End`.
- `step` dispatch: the stepping loop of `collect_coverage` takes the result of each `step` call as an input. `CollectCoverage` therefore does not connect those results to the `LinuxData` methods.
- Runner.CollectCoverage: returns only the final event, "FINISHED" or the sanitised error. The events the `step` calls would have logged are missing because those calls are inputs, and for the same reason the traces keep count 0.
- Syscalls are inputs, not effects: `waitpid`, `trace_children`, `continue_exec`, `single_step`, `detach_child`, `get_event_data`, `current_instruction_pointer`, `fork`, `Path::exists`, `sched_getcpu`, `set_affinity` and `execve`.
- One `stop` call reads the registers and event data once, as a snapshot: a pid's instruction pointer is the same each time it is read during that call.
- `Breakpoint` internals (`breakpoint.rs` is not part of this model). `Breakpoint::new` and `process` are inputs, `jump_to` has no modelled effect, and `thread_killed` on exit is not modelled.
- `stop` always passes an empty visited set, so the `jump_to` branch of `collect_coverage_data` never runs there; `CollectCoverageData` still models it for any visited set.
- `collect_coverage_data` never fails, so the error mapping `stop` wraps around it can never be reached. That branch is not written.
- Runner.RunSteps and Runner.CollectCoverage: require that some step result ends the run (an error or a finished state). The source's loop spins for as long as the state machine returns neither.
- PtraceStateMachine.LinuxData.Wait: requires that a result which ends the drain loop arrives. The source spins for as long as waitpid keeps reporting other statuses.
- `continue_exec(..)` in the fallback of `stop`, and a `TryContinue`, both have their results ignored, so they are not inputs.
- Debug formatting of errors covers the crate's `Error` and nix errors. The Display text of a nix errno is taken to be its name, `: ` and its description, as the nix releases that still have `Error::Sys` write it. String escaping handles only `"` and `\`. The text of `io::Error` is an input.
- The i64 overflow of `pc - 1` when `pc` is `i64::MIN` is not modelled (a debug-build panic). `isize` overflow of the thread count and `usize` overflow of hit counts are not modelled either.
- Printing (`println!`), the gnuplot drawing in both `save_graph` functions and their output files are not modelled.
- The RGB values of `generate_palette` are floating-point trigonometry. A hue is modelled as its position in the palette, so the model does not promise that two pids get visibly different colours: the source's cast to bytes saturates, and neighbouring positions of a long palette can yield the same RGB value.
- `set_affinity(..).expect(..)` panicking when no CPU of the mask is set is not modelled. `LockCpu` only builds the mask.
- `env::vars()` panicking on non-Unicode variables is not modelled. The variables are an input sequence.
- `test.to_str().unwrap()` in `execute_test` panicking on a path that is not UTF-8 is not modelled: the path is a `string`.
- `src/linux.rs` (`personality`, `execute`) and `src/main.rs` (argument parsing, reading the TOML configuration) are not modelled: they are thin wrappers around foreign calls and library code.
- `os.system` in `failure_rate.py` is not executed; the exit statuses are an input. The identity test `is not 0` is modelled as value inequality.
