/**
 * Setting up a coverage run: the traces built from the configured breakpoints,
 * the loop that steps the state machine, the CPU pinning mask, the argument and
 * environment vectors handed to the test executable, and the top-level `run`.
 */
module Runner {
  import opened Wrappers
  import opened Tracer
  import opened EventTimeline
  import opened PtraceStateMachine

  /** One trace per configured breakpoint, in the configured order (`collect_coverage`). */
  function CollectTraces(breakpoints: seq<int>): (ts: seq<Trace>)
    ensures |ts| == |breakpoints|
    ensures forall i :: 0 <= i < |ts| ==> ts[i] == NewTrace(breakpoints[i])
  {
    if breakpoints == [] then []
    else CollectTraces(breakpoints[..|breakpoints| - 1]) + [NewTrace(breakpoints[|breakpoints| - 1])]
  }

  /** The addresses printed in the final report (`t.address.unwrap_or(0)`). */
  function ReportedAddresses(ts: seq<Trace>): (addrs: seq<int>)
    ensures |addrs| == |ts|
    ensures forall i :: 0 <= i < |ts| ==> addrs[i] == if ts[i].address.Some? then ts[i].address.value else 0
  {
    if ts == [] then []
    else ReportedAddresses(ts[..|ts| - 1]) + [if ts[|ts| - 1].address.Some? then ts[|ts| - 1].address.value else 0]
  }

  /** The traces of a run report back exactly the configured addresses, with no hits yet. */
  lemma {:induction false} CollectTracesRoundTrip(breakpoints: seq<int>)
    ensures ReportedAddresses(CollectTraces(breakpoints)) == breakpoints
    ensures TotalHits(CollectTraces(breakpoints)) == 0
  {
    if breakpoints != [] {
      var n := |breakpoints| - 1;
      CollectTracesRoundTrip(breakpoints[..n]);
      assert CollectTraces(breakpoints)[..n] == CollectTraces(breakpoints[..n]);
    }
  }

  /** The error message logged on failure, with every double quote turned into a single quote. */
  function Sanitise(msg: string): (r: string)
    ensures |r| == |msg|
    ensures forall i :: 0 <= i < |msg| && msg[i] == '"' ==> r[i] == '\''
    ensures forall i :: 0 <= i < |msg| && msg[i] != '"' ==> r[i] == msg[i]
  {
    if msg == [] then []
    else Sanitise(msg[..|msg| - 1]) + [if msg[|msg| - 1] == '"' then '\'' else msg[|msg| - 1]]
  }

  /** A sanitised message holds no double quote; sanitising is idempotent and keeps quote-free text. */
  lemma SanitiseProperties(msg: string)
    ensures '"' !in Sanitise(msg)
    ensures Sanitise(Sanitise(msg)) == Sanitise(msg)
    ensures '"' !in msg ==> Sanitise(msg) == msg
  {
    var r := Sanitise(msg);
    assert forall i :: 0 <= i < |r| ==> r[i] != '"';
  }

  /** The state machine is done once it reaches its end state. */
  predicate IsFinished(s: TestState) {
    s.End?
  }

  /** A step result that ends the run loop: an error or a finished state. */
  predicate EndsRun(step: Result<TestState, RunError>) {
    step.Err? || IsFinished(step.value)
  }

  /**
   * The stepping loop of `collect_coverage`: `steps[i]` is what the i-th call to
   * `step` returned. Stops at the first error or the first finished state.
   */
  method RunSteps(steps: seq<Result<TestState, RunError>>) returns (last: Result<TestState, RunError>, taken: nat)
    requires exists j :: 0 <= j < |steps| && EndsRun(steps[j])
    ensures 1 <= taken <= |steps| && last == steps[taken - 1]
    ensures EndsRun(last)
    ensures forall j :: 0 <= j < taken - 1 ==> steps[j].Ok? && !IsFinished(steps[j].value)
  {
    var i := 0;
    while true
      invariant 0 <= i < |steps|
      invariant exists j :: i <= j < |steps| && EndsRun(steps[j])
      invariant forall j :: 0 <= j < i ==> !EndsRun(steps[j])
      decreases |steps| - i
    {
      var state := steps[i];
      if state.Err? {
        return state, i + 1;
      }
      if IsFinished(state.value) {
        return state, i + 1;
      }
      i := i + 1;
    }
  }

  /**
   * `collect_coverage` for test process `test`, with the state machine's step
   * results given as `steps` and `ip` the test's instruction pointer when the
   * final event is logged. Returns the run's result and the timeline's events.
   */
  method CollectCoverage(test: Pid, breakpoints: seq<int>, steps: seq<Result<TestState, RunError>>, ip: Option<int>)
    returns (r: Result<(), RunError>, events: seq<Event>)
    requires exists j :: 0 <= j < |steps| && EndsRun(steps[j])
    ensures r.Err? <==> exists j :: 0 <= j < |steps| && steps[j].Err? && forall k :: 0 <= k < j ==> !EndsRun(steps[k])
    ensures r.Err? ==> exists j :: 0 <= j < |steps| && steps[j] == Err(r.error) && forall k :: 0 <= k < j ==> !EndsRun(steps[k])
    ensures r.Err? ==> events == [NewEvent(test, Sanitise(ErrorDebug(r.error)), ip)]
    ensures r.Ok? ==> events == [NewEvent(test, "FINISHED", ip)]
  {
    var traces := CollectTraces(breakpoints);
    var slice := new Trace[|traces|](i requires 0 <= i < |traces| => traces[i]);
    var state, data := CreateStateMachine(test, slice);
    var last, taken := RunSteps(steps);
    if last.Err? {
      var msg := Sanitise(ErrorDebug(last.error));
      data.timeline.AddEvent(NewEvent(test, msg, ip));
      return Err(last.error), data.timeline.events;
    }
    data.timeline.AddEvent(NewEvent(test, "FINISHED", ip));
    r := Ok(());
    events := data.timeline.events;
    assert forall j :: 0 <= j < |steps| && steps[j].Err? ==> exists k :: 0 <= k < j && EndsRun(steps[k]) by {
      forall j | 0 <= j < |steps| && steps[j].Err? ensures exists k :: 0 <= k < j && EndsRun(steps[k]) {
        assert taken - 1 < j;
        assert EndsRun(steps[taken - 1]);
      }
    }
  }

  /** The number of CPUs the affinity mask covers (taken from kcov). */
  const CPU_COUNT: nat := 4096

  /**
   * The mask `lock_cpu` builds: `cpu` is what `sched_getcpu` returned, cast to
   * `usize` (so the error value -1 names no CPU of the mask).
   */
  method LockCpu(cpu: int) returns (mask: array<bool>)
    requires I32_MIN <= cpu <= I32_MAX
    ensures mask.Length == CPU_COUNT
    ensures forall i :: 0 <= i < CPU_COUNT ==> mask[i] == (i == AsU64(cpu))
    ensures 0 <= cpu < CPU_COUNT ==> mask[cpu] && forall i :: 0 <= i < CPU_COUNT && i != cpu ==> !mask[i]
    ensures !(0 <= cpu < CPU_COUNT) ==> forall i :: 0 <= i < CPU_COUNT ==> !mask[i]
  {
    var current := AsU64(cpu);
    mask := new bool[CPU_COUNT];
    for i := 0 to CPU_COUNT
      invariant forall j :: 0 <= j < i ==> mask[j] == (j == current)
    {
      if i != current {
        mask[i] := false;
      } else {
        mask[i] := true;
      }
    }
  }

  /** What `execute_test` hands to `execve`. */
  datatype ExecRequest = ExecRequest(program: string, argv: seq<string>, envars: seq<string>)

  /** One environment entry, `key=value`. */
  function EnvEntry(kv: (string, string)): string {
    kv.0 + "=" + kv.1
  }

  /** A string that `CString::new` rejects. */
  predicate HasNul(s: string) {
    '\0' in s
  }

  /**
   * `execute_test`: the program path, the argument vector and the environment;
   * `vars` is the process environment in iteration order. None stands for the
   * panic of `CString::new(..).unwrap()` on a string holding a NUL.
   */
  method ExecuteTest(path: string, vars: seq<(string, string)>) returns (r: Option<ExecRequest>)
    ensures r.None? <==> HasNul(path) || exists i :: 0 <= i < |vars| && HasNul(EnvEntry(vars[i]))
    ensures r.Some? ==> r.value.program == path && r.value.argv == [path]
    ensures r.Some? ==> |r.value.envars| == |vars| + 2 && r.value.envars[0] == "RUST_TEST_THREADS=1"
    ensures r.Some? ==> forall i :: 0 <= i < |vars| ==> r.value.envars[i + 1] == EnvEntry(vars[i])
    ensures r.Some? ==> r.value.envars[|vars| + 1] == "RUST_BACKTRACE=1"
  {
    if HasNul(path) {
      return None;
    }
    var envars := ["RUST_TEST_THREADS=1"];
    for i := 0 to |vars|
      invariant |envars| == i + 1 && envars[0] == "RUST_TEST_THREADS=1"
      invariant forall j :: 0 <= j < i ==> envars[j + 1] == EnvEntry(vars[j]) && !HasNul(EnvEntry(vars[j]))
    {
      var temp := vars[i].0 + "=" + vars[i].1;
      if HasNul(temp) {
        return None;
      }
      envars := envars + [temp];
    }
    var argv := [path];
    envars := envars + ["RUST_BACKTRACE=1"];
    r := Some(ExecRequest(path, argv, envars));
  }

  /** The outcome of `fork`. */
  datatype ForkResult = Parent(child: Pid) | Child | ForkFailed

  /** What `run` returns, and whether it got as far as pinning the CPU and forking. */
  datatype RunOutcome = RunOutcome(result: Result<(), RunError>, forked: bool)

  /**
   * `run`: `binaryExists` is whether the configured binary exists, `coverage`
   * what `collect_coverage` returns for a child pid, `exec` what
   * `execute_test` returns in the child.
   */
  function Run(binaryExists: bool, fork: ForkResult, coverage: Pid -> Result<(), RunError>, exec: Result<(), RunError>)
    : (o: RunOutcome)
    ensures !binaryExists ==> o == RunOutcome(Err(TestDoesntExist), false)
    ensures binaryExists ==> o.forked
    ensures binaryExists && fork.ForkFailed? ==> o.result == Err(ForkFail)
    ensures binaryExists && fork.Parent? ==> o.result == coverage(fork.child)
    ensures binaryExists && fork.Child? ==> o.result == exec
  {
    if !binaryExists then RunOutcome(Err(TestDoesntExist), false)
    else
      match fork
      case Parent(child) => RunOutcome(coverage(child), true)
      case Child => RunOutcome(exec, true)
      case ForkFailed => RunOutcome(Err(ForkFail), true)
  }
}
