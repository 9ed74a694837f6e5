/**
 * The Linux ptrace state machine: how the tracer reacts to the wait statuses of
 * the traced test process and its threads. Every syscall the handlers issue
 * (waitpid, the register and event-data reads, Breakpoint::new and process,
 * continue/step/detach) is an input: a status, a result sequence or a snapshot
 * of the ptrace facts available during one `stop` call.
 */
module PtraceStateMachine {
  import opened Wrappers
  import opened Decimal
  import opened Tracer
  import opened EventTimeline

  // ptrace event codes (linux/ptrace.h)
  const PTRACE_EVENT_FORK: int := 1
  const PTRACE_EVENT_VFORK: int := 2
  const PTRACE_EVENT_CLONE: int := 3
  const PTRACE_EVENT_EXEC: int := 4
  const PTRACE_EVENT_EXIT: int := 6

  const PIE_MESSAGE: string :=
    "ERROR: Tarpaulin cannot find code addresses check that pie is disabled for your linker. "
    + "If linking with gcc try adding -C link-args=-no-pie to your rust flags"

  /** A breakpoint created by `Breakpoint::new(pid, addr)`; its internals are not modelled. */
  datatype Breakpoint = Breakpoint(pid: Pid, addr: int)

  /** What handling one wait status yields: the next state and an action, or an error. */
  type Outcome = Result<(TestState, TracerAction), RunError>

  /**
   * The ptrace facts one `stop` call observes while its tracees are stopped:
   * instruction pointers (a pid that is absent cannot be read), the data of
   * clone events (absent: `get_event_data` failed), what `Breakpoint::process`
   * returns for a thread at an address (None: it failed), and the error, if
   * any, that executing an action returns.
   */
  datatype Ptrace = Ptrace(
    registers: map<Pid, int>,
    eventData: map<Pid, int>,
    process: (Pid, int) -> Option<(bool, TracerAction)>,
    resumeError: TracerAction -> Option<NixError>)

  /** `current_instruction_pointer(pid)`. */
  function Ip(orc: Ptrace, pid: Pid): Option<int> {
    if pid in orc.registers then Some(orc.registers[pid]) else None
  }

  predicate IsEio(e: NixError) {
    e.Sys? && e.errno.code == EIO_CODE
  }

  // ---------------------------------------------------------------------------
  // init: installing the breakpoints
  // ---------------------------------------------------------------------------

  /**
   * The breakpoint map after the instrumentation loop of `init`, and the error
   * that aborted it, if any. `created[i]` is what `Breakpoint::new` returned for
   * `ts[i]`; traces without an address are skipped.
   */
  function InsertAll(m: map<int, Breakpoint>, cur: Pid, ts: seq<Trace>, created: seq<Result<(), NixError>>)
    : (map<int, Breakpoint>, Option<RunError>)
    requires |ts| == |created|
    decreases |ts|
  {
    if ts == [] then (m, None)
    else if ts[0].address.None? then InsertAll(m, cur, ts[1..], created[1..])
    else
      var addr := ts[0].address.value;
      match created[0]
      case Ok(_) => InsertAll(m[addr := Breakpoint(cur, addr)], cur, ts[1..], created[1..])
      case Err(e) =>
        if IsEio(e) then (m, Some(TestRuntime(PIE_MESSAGE)))
        else if e == UnsupportedOperation then InsertAll(m, cur, ts[1..], created[1..])
        else (m, Some(TestRuntime("Failed to instrument test executable")))
  }

  /** A trace whose breakpoint could not be created for a reason other than an address clash. */
  predicate Fatal(t: Trace, c: Result<(), NixError>) {
    t.address.Some? && c.Err? && c.error != UnsupportedOperation
  }

  /** The addresses whose breakpoints were created. */
  ghost function CreatedAddrs(ts: seq<Trace>, created: seq<Result<(), NixError>>): set<int>
    requires |ts| == |created|
  {
    set i | 0 <= i < |ts| && ts[i].address.Some? && created[i].Ok? :: ts[i].address.value
  }

  /** `init` aborts exactly when some breakpoint failed fatally; the two fatal messages. */
  lemma {:induction false} InsertAllAborts(m: map<int, Breakpoint>, cur: Pid, ts: seq<Trace>, created: seq<Result<(), NixError>>)
    requires |ts| == |created|
    ensures InsertAll(m, cur, ts, created).1.Some? <==> exists j :: 0 <= j < |ts| && Fatal(ts[j], created[j])
    ensures InsertAll(m, cur, ts, created).1 in {None, Some(TestRuntime(PIE_MESSAGE)), Some(TestRuntime("Failed to instrument test executable"))}
    decreases |ts|
  {
    if ts != [] {
      InsertAllAborts(if ts[0].address.Some? && created[0].Ok? then m[ts[0].address.value := Breakpoint(cur, ts[0].address.value)] else m,
                      cur, ts[1..], created[1..]);
      if exists j :: 0 <= j < |ts| && Fatal(ts[j], created[j]) {
        var j :| 0 <= j < |ts| && Fatal(ts[j], created[j]);
        if j > 0 {
          assert Fatal(ts[1..][j - 1], created[1..][j - 1]);
        }
      }
      forall j | 0 <= j < |ts| - 1 && Fatal(ts[1..][j], created[1..][j])
        ensures Fatal(ts[j + 1], created[j + 1])
      {
      }
    }
  }

  /** When `init` does not abort, every created breakpoint's address is a key, and nothing else is added. */
  lemma {:induction false} InsertAllKeys(m: map<int, Breakpoint>, cur: Pid, ts: seq<Trace>, created: seq<Result<(), NixError>>)
    requires |ts| == |created|
    requires InsertAll(m, cur, ts, created).1.None?
    ensures InsertAll(m, cur, ts, created).0.Keys == m.Keys + CreatedAddrs(ts, created)
    ensures forall a :: a in InsertAll(m, cur, ts, created).0 ==>
      InsertAll(m, cur, ts, created).0[a] == Breakpoint(cur, a) || (a in m && InsertAll(m, cur, ts, created).0[a] == m[a])
    decreases |ts|
  {
    if ts != [] {
      var m' := if ts[0].address.Some? && created[0].Ok? then m[ts[0].address.value := Breakpoint(cur, ts[0].address.value)] else m;
      InsertAllKeys(m', cur, ts[1..], created[1..]);
      var rest := CreatedAddrs(ts[1..], created[1..]);
      var here := if ts[0].address.Some? && created[0].Ok? then {ts[0].address.value} else {};
      forall a | a in CreatedAddrs(ts, created) ensures a in here + rest {
        var i :| 0 <= i < |ts| && ts[i].address.Some? && created[i].Ok? && ts[i].address.value == a;
        if i > 0 {
          assert ts[1..][i - 1] == ts[i] && created[1..][i - 1] == created[i];
        }
      }
      forall a | a in here + rest ensures a in CreatedAddrs(ts, created) {
        if a !in here {
          var i :| 0 <= i < |ts| - 1 && ts[1..][i].address.Some? && created[1..][i].Ok? && ts[1..][i].address.value == a;
          assert ts[i + 1].address.value == a;
        }
      }
      assert CreatedAddrs(ts, created) == here + rest;
    }
  }

  // ---------------------------------------------------------------------------
  // wait: draining waitpid
  // ---------------------------------------------------------------------------

  /** A waitpid result that ends the drain loop of `wait`. */
  predicate EndsWait(w: WaitResult) {
    w.Err? || w.value.StillAlive? || w.value.Exited? || w.value.PtraceEvent?
  }

  /** What one waitpid result pushes onto the wait queue. */
  function Queued(w: WaitResult): seq<WaitStatus> {
    if w.Ok? && !w.value.StillAlive? then [w.value] else []
  }

  /** What a run of waitpid results pushes, in order. */
  function QueuedAll(polls: seq<WaitResult>): seq<WaitStatus> {
    if polls == [] then [] else QueuedAll(polls[..|polls| - 1]) + Queued(polls[|polls| - 1])
  }

  /** The position of the waitpid result that ends the drain loop. */
  ghost function FirstEnd(polls: seq<WaitResult>): (k: nat)
    requires exists j :: 0 <= j < |polls| && EndsWait(polls[j])
    ensures k < |polls| && EndsWait(polls[k])
    ensures forall j :: 0 <= j < k ==> !EndsWait(polls[j])
  {
    if EndsWait(polls[0]) then 0
    else
      var j :| 0 <= j < |polls| && EndsWait(polls[j]);
      assert EndsWait(polls[1..][j - 1]);
      1 + FirstEnd(polls[1..])
  }

  /** Before the result that ends `wait`, every status is queued, in arrival order. */
  lemma {:induction false} QueuedPrefix(polls: seq<WaitResult>, n: nat)
    requires n <= |polls| && forall j :: 0 <= j < n ==> !EndsWait(polls[j])
    ensures QueuedAll(polls[..n]) == seq(n, j requires 0 <= j < n && !EndsWait(polls[j]) => polls[j].value)
  {
    if n > 0 {
      QueuedPrefix(polls, n - 1);
      assert polls[..n][..n - 1] == polls[..n - 1];
    }
  }

  /**
   * The statuses `wait` queued up to and including the one that ended it: every
   * status before it, in arrival order, then the last one if it was an exit or
   * a ptrace event.
   */
  lemma QueuedInArrivalOrder(polls: seq<WaitResult>, k: nat)
    requires k < |polls| && EndsWait(polls[k]) && forall j :: 0 <= j < k ==> !EndsWait(polls[j])
    ensures QueuedAll(polls[..k + 1]) == seq(k, j requires 0 <= j < k && !EndsWait(polls[j]) => polls[j].value)
      + (if polls[k].Ok? && (polls[k].value.Exited? || polls[k].value.PtraceEvent?) then [polls[k].value] else [])
  {
    QueuedPrefix(polls, k);
    assert polls[..k + 1][..k] == polls[..k];
  }

  // ---------------------------------------------------------------------------
  // stop: the per-status handlers
  // ---------------------------------------------------------------------------

  /** `handle_signaled`: only a SIGTRAP with the flag set is expected. */
  function HandleSignaled(pid: Pid, sig: Signal, flag: bool): (r: Outcome)
    ensures r.Ok? <==> sig == SIGTRAP && flag
    ensures r.Ok? ==> r.value == (Waiting, Continue(Info(pid)))
    ensures r.Err? ==> r.error == StateMachine("Unexpected stop")
  {
    if sig == SIGTRAP && flag then Ok((Waiting, Continue(Info(pid))))
    else Err(StateMachine("Unexpected stop"))
  }

  /** The result of `handle_ptrace_event`. */
  function PtraceEventOutcome(child: Pid, sig: Signal, event: int, orc: Ptrace): Outcome {
    if sig != SIGTRAP then Err(TestRuntime("Unexpected signal"))
    else if event == PTRACE_EVENT_CLONE then
      if child in orc.eventData then Ok((Waiting, Continue(Info(child))))
      else Err(TestRuntime("Error occurred upon test executable thread creation"))
    else if event == PTRACE_EVENT_FORK || event == PTRACE_EVENT_VFORK then Ok((Waiting, Continue(Info(child))))
    else if event == PTRACE_EVENT_EXEC then Ok((Waiting, Detach(Info(child))))
    else if event == PTRACE_EVENT_EXIT then Ok((Waiting, TryContinue(Info(child))))
    else Err(TestRuntime("Unrecognised ptrace event " + IntToString(event)))
  }

  /** How much a ptrace event changes the thread count. */
  function ThreadDelta(child: Pid, sig: Signal, event: int, orc: Ptrace): int {
    if sig != SIGTRAP then 0
    else if event == PTRACE_EVENT_CLONE && child in orc.eventData then 1
    else if event == PTRACE_EVENT_EXIT then -1
    else 0
  }

  /** The timeline events a ptrace event adds. */
  function PtraceEventLog(child: Pid, sig: Signal, event: int, orc: Ptrace): seq<Event> {
    if sig != SIGTRAP then []
    else if event == PTRACE_EVENT_CLONE then
      if child in orc.eventData then [NewThread(EventAddr(Ip(orc, child)), child, AsI32(orc.eventData[child]))] else []
    else if event == PTRACE_EVENT_FORK || event == PTRACE_EVENT_VFORK then [NewEvent(child, "Fork Event", Ip(orc, child))]
    else if event == PTRACE_EVENT_EXEC then [NewEvent(child, "Exec Event", Ip(orc, child))]
    else if event == PTRACE_EVENT_EXIT then [NewEvent(child, "EXIT", Ip(orc, child))]
    else []
  }

  /** The thread count moves by one only on a successful clone or an exit; exec detaches. */
  lemma PtraceEventEffects(child: Pid, sig: Signal, event: int, orc: Ptrace)
    ensures sig != SIGTRAP ==> PtraceEventOutcome(child, sig, event, orc).Err? && ThreadDelta(child, sig, event, orc) == 0
    ensures sig == SIGTRAP && event == PTRACE_EVENT_CLONE ==>
      (ThreadDelta(child, sig, event, orc) == 1 <==> PtraceEventOutcome(child, sig, event, orc).Ok?)
    ensures sig == SIGTRAP && event == PTRACE_EVENT_EXIT ==> ThreadDelta(child, sig, event, orc) == -1
    ensures event in {PTRACE_EVENT_FORK, PTRACE_EVENT_VFORK, PTRACE_EVENT_EXEC} ==> ThreadDelta(child, sig, event, orc) == 0
    ensures sig == SIGTRAP && event == PTRACE_EVENT_EXEC ==> PtraceEventOutcome(child, sig, event, orc) == Ok((Waiting, Detach(Info(child))))
    ensures event !in {PTRACE_EVENT_FORK, PTRACE_EVENT_VFORK, PTRACE_EVENT_CLONE, PTRACE_EVENT_EXEC, PTRACE_EVENT_EXIT} ==>
      PtraceEventOutcome(child, sig, event, orc).Err? && ThreadDelta(child, sig, event, orc) == 0
  {
  }

  /** What `collect_coverage_data` decides for a SIGTRAP of thread `cur`. */
  datatype CoverageStep = CoverageStep(updated: bool, rip: int, action: TracerAction)

  function CoverageOf(cur: Pid, bps: map<int, Breakpoint>, visited: set<int>, orc: Ptrace): CoverageStep {
    if cur !in orc.registers then CoverageStep(false, 0, Continue(Info(cur)))
    else
      var rip := AsU64(orc.registers[cur] - 1);
      if rip !in bps then CoverageStep(false, rip, Continue(Info(cur)))
      else if rip in visited then CoverageStep(true, rip, Continue(Info(cur)))
      else match orc.process(cur, rip)
        case Some(res) => CoverageStep(res.0, rip, res.1)
        case None => CoverageStep(false, rip, Continue(Info(cur)))
  }

  /**
   * Counts move only when the breakpoint at `rip` was processed and reported an
   * update. An unreadable pc, no breakpoint at `rip` or a failed `process`
   * continues the thread; a processed hit without an update takes the action
   * `process` returned. With no visited addresses (all that `stop` ever
   * passes) the "already visited" branch is never taken.
   */
  lemma CoverageOfCases(cur: Pid, bps: map<int, Breakpoint>, orc: Ptrace)
    ensures cur !in orc.registers ==> CoverageOf(cur, bps, {}, orc) == CoverageStep(false, 0, Continue(Info(cur)))
    ensures cur in orc.registers && AsU64(orc.registers[cur] - 1) !in bps ==>
      !CoverageOf(cur, bps, {}, orc).updated && CoverageOf(cur, bps, {}, orc).action == Continue(Info(cur))
    ensures cur in orc.registers && AsU64(orc.registers[cur] - 1) in bps && orc.process(cur, AsU64(orc.registers[cur] - 1)) == None ==>
      !CoverageOf(cur, bps, {}, orc).updated && CoverageOf(cur, bps, {}, orc).action == Continue(Info(cur))
    ensures forall a :: (cur in orc.registers && AsU64(orc.registers[cur] - 1) in bps
                          && orc.process(cur, AsU64(orc.registers[cur] - 1)) == Some((false, a))) ==>
      !CoverageOf(cur, bps, {}, orc).updated && CoverageOf(cur, bps, {}, orc).action == a
    ensures CoverageOf(cur, bps, {}, orc).updated ==>
      cur in orc.registers && CoverageOf(cur, bps, {}, orc).rip == AsU64(orc.registers[cur] - 1)
      && CoverageOf(cur, bps, {}, orc).rip in bps
      && orc.process(cur, CoverageOf(cur, bps, {}, orc).rip) == Some((true, CoverageOf(cur, bps, {}, orc).action))
  {
  }

  /** One hit of address `rip`: every trace at that address counts one more. */
  function Bump(ts: seq<Trace>, rip: int): (r: seq<Trace>)
    ensures |r| == |ts|
    ensures forall i :: 0 <= i < |ts| ==> r[i].address == ts[i].address
    ensures forall i :: 0 <= i < |ts| && ts[i].address == Some(rip) ==> r[i].count == ts[i].count + 1
    ensures forall i :: 0 <= i < |ts| && ts[i].address != Some(rip) ==> r[i] == ts[i]
  {
    seq(|ts|, i requires 0 <= i < |ts| => if ts[i].address == Some(rip) then ts[i].(count := ts[i].count + 1) else ts[i])
  }

  function TotalHits(ts: seq<Trace>): nat {
    if ts == [] then 0 else TotalHits(ts[..|ts| - 1]) + ts[|ts| - 1].count
  }

  function TracesAt(ts: seq<Trace>, rip: int): nat {
    if ts == [] then 0 else TracesAt(ts[..|ts| - 1], rip) + (if ts[|ts| - 1].address == Some(rip) then 1 else 0)
  }

  /** A hit adds exactly one per trace at that address to the total. */
  lemma {:induction false} BumpTotal(ts: seq<Trace>, rip: int)
    ensures TotalHits(Bump(ts, rip)) == TotalHits(ts) + TracesAt(ts, rip)
  {
    if ts != [] {
      var n := |ts| - 1;
      BumpTotal(ts[..n], rip);
      assert Bump(ts, rip)[..n] == Bump(ts[..n], rip);
    }
  }

  /** The result `stop` takes from one pending status. */
  function StatusOutcome(s: WaitStatus, parent: Pid, bps: map<int, Breakpoint>, orc: Ptrace): Outcome {
    match s
    case PtraceEvent(c, sig, e) =>
      var r := PtraceEventOutcome(c, sig, e, orc);
      if r.Ok? then r else Err(TestRuntime("Error occurred when handling ptrace event: " + ErrorDebug(r.error)))
    case Stopped(c, sig) =>
      if sig == SIGTRAP then Ok((Waiting, CoverageOf(c, bps, {}, orc).action))
      else if sig == SIGSTOP then Ok((Waiting, Continue(Info(c))))
      else if sig == SIGSEGV then Err(TestRuntime("A segfault occurred while executing tests"))
      else if sig == SIGILL then Err(TestRuntime("Error running test - SIGILL raised in " + IntToString(c)))
      else Ok((Waiting, TryContinue(ProcessInfo(c, None))))
    case Signaled(c, sig, f) =>
      if HandleSignaled(c, sig, f).Ok? then HandleSignaled(c, sig, f)
      else Err(TestRuntime("Attempting to handle tarpaulin being signaled"))
    case Exited(c, ec) =>
      if c == parent then Ok((End(ec), Nothing)) else Ok((Waiting, TryContinue(Info(parent))))
    case PtraceSyscall(_) => Err(TestRuntime("An unexpected signal has been caught by tarpaulin!"))
    case Continued(_) => Err(TestRuntime("An unexpected signal has been caught by tarpaulin!"))
    case StillAlive => Err(TestRuntime("An unexpected signal has been caught by tarpaulin!"))
  }

  /** How stop signals and exits map to states and actions. */
  lemma StatusMapping(c: Pid, sig: Signal, ec: int, parent: Pid, bps: map<int, Breakpoint>, orc: Ptrace)
    ensures StatusOutcome(WaitStatus.Stopped(c, SIGSTOP), parent, bps, orc) == Ok((Waiting, Continue(Info(c))))
    ensures StatusOutcome(WaitStatus.Stopped(c, SIGSEGV), parent, bps, orc).Err?
    ensures StatusOutcome(WaitStatus.Stopped(c, SIGILL), parent, bps, orc).Err?
    ensures sig !in {SIGTRAP, SIGSTOP, SIGSEGV, SIGILL} ==>
      StatusOutcome(WaitStatus.Stopped(c, sig), parent, bps, orc) == Ok((Waiting, TryContinue(ProcessInfo(c, None))))
    ensures StatusOutcome(WaitStatus.Stopped(c, SIGTRAP), parent, bps, orc).Ok?
      && StatusOutcome(WaitStatus.Stopped(c, SIGTRAP), parent, bps, orc).value.0 == Waiting
    ensures c == parent ==> StatusOutcome(Exited(c, ec), parent, bps, orc) == Ok((End(ec), Nothing))
    ensures c != parent ==> StatusOutcome(Exited(c, ec), parent, bps, orc) == Ok((Waiting, TryContinue(Info(parent))))
  {
  }

  /** The tracer fields that handling a status may change. */
  datatype Effects = Effects(current: Pid, threadCount: int, traces: seq<Trace>)

  function ProcessStatus(eff: Effects, s: WaitStatus, bps: map<int, Breakpoint>, orc: Ptrace): Effects {
    match s
    case PtraceEvent(c, sig, e) => eff.(threadCount := eff.threadCount + ThreadDelta(c, sig, e, orc))
    case Stopped(c, sig) =>
      if sig == SIGTRAP then
        var step := CoverageOf(c, bps, {}, orc);
        eff.(current := c, traces := if step.updated then Bump(eff.traces, step.rip) else eff.traces)
      else eff
    case _ => eff
  }

  /** The timeline events handling a status adds. */
  function StatusLog(s: WaitStatus, orc: Ptrace): seq<Event> {
    match s
    case PtraceEvent(c, sig, e) => PtraceEventLog(c, sig, e, orc)
    case Stopped(c, sig) =>
      if sig == SIGTRAP then [NewEvent(c, "SIGTRAP", Ip(orc, c))]
      else if sig == SIGSTOP then [NewEvent(c, "SIGSTOP", Ip(orc, c))]
      else if sig == SIGSEGV then [NewEvent(c, "SIGSEGV", Ip(orc, c))]
      else if sig == SIGILL then [NewEvent(c, "SIGILL", Ip(orc, c))]
      else []
    case Exited(c, ec) => [NewEvent(c, "EXITED " + IntToString(ec), Ip(orc, c))]
    case _ => []
  }

  function ProcessAll(eff: Effects, pending: seq<WaitStatus>, bps: map<int, Breakpoint>, orc: Ptrace): Effects {
    if pending == [] then eff
    else ProcessStatus(ProcessAll(eff, pending[..|pending| - 1], bps, orc), pending[|pending| - 1], bps, orc)
  }

  function StopLog(pending: seq<WaitStatus>, orc: Ptrace): seq<Event> {
    if pending == [] then [] else StopLog(pending[..|pending| - 1], orc) + StatusLog(pending[|pending| - 1], orc)
  }

  function Outcomes(pending: seq<WaitStatus>, parent: Pid, bps: map<int, Breakpoint>, orc: Ptrace): seq<Outcome> {
    if pending == [] then []
    else Outcomes(pending[..|pending| - 1], parent, bps, orc) + [StatusOutcome(pending[|pending| - 1], parent, bps, orc)]
  }

  lemma {:induction false} OutcomesAt(pending: seq<WaitStatus>, parent: Pid, bps: map<int, Breakpoint>, orc: Ptrace)
    ensures |Outcomes(pending, parent, bps, orc)| == |pending|
    ensures forall i :: 0 <= i < |pending| ==> Outcomes(pending, parent, bps, orc)[i] == StatusOutcome(pending[i], parent, bps, orc)
  {
    if pending != [] {
      var n := |pending| - 1;
      OutcomesAt(pending[..n], parent, bps, orc);
      var outs := Outcomes(pending, parent, bps, orc);
      forall i | 0 <= i < |pending| ensures outs[i] == StatusOutcome(pending[i], parent, bps, orc) {
        if i < n {
          assert pending[..n][i] == pending[i];
        }
      }
    }
  }

  /** Hit counters never go down and addresses never change while `stop` handles statuses. */
  lemma {:induction false} ProcessAllCounts(eff: Effects, pending: seq<WaitStatus>, bps: map<int, Breakpoint>, orc: Ptrace)
    ensures |ProcessAll(eff, pending, bps, orc).traces| == |eff.traces|
    ensures forall i :: 0 <= i < |eff.traces| ==>
      ProcessAll(eff, pending, bps, orc).traces[i].address == eff.traces[i].address
      && ProcessAll(eff, pending, bps, orc).traces[i].count >= eff.traces[i].count
    ensures TotalHits(ProcessAll(eff, pending, bps, orc).traces) >= TotalHits(eff.traces)
  {
    if pending != [] {
      var prev := ProcessAll(eff, pending[..|pending| - 1], bps, orc);
      ProcessAllCounts(eff, pending[..|pending| - 1], bps, orc);
      var s := pending[|pending| - 1];
      if s.Stopped? && s.signal == SIGTRAP {
        var step := CoverageOf(s.pid, bps, {}, orc);
        if step.updated {
          BumpTotal(prev.traces, step.rip);
        }
      }
    }
  }

  /** A result that decides `stop`'s verdict: an error or a state other than waiting. */
  predicate IsWaiting(o: Outcome) {
    o.Ok? && o.value.0.Waiting?
  }

  function Verdict(o: Outcome): Result<TestState, RunError> {
    if o.Ok? then Ok(o.value.0) else Err(o.error)
  }

  /** `stop`'s result: the last deciding result wins, waiting is the default. */
  function StopVerdict(outs: seq<Outcome>): Result<TestState, RunError> {
    if outs == [] then Ok(Waiting)
    else if IsWaiting(outs[|outs| - 1]) then StopVerdict(outs[..|outs| - 1])
    else Verdict(outs[|outs| - 1])
  }

  /** The actions `stop` collects: one per successful result, in order. */
  function StopActions(outs: seq<Outcome>): seq<TracerAction> {
    if outs == [] then []
    else StopActions(outs[..|outs| - 1]) + (if outs[|outs| - 1].Ok? then [outs[|outs| - 1].value.1] else [])
  }

  /** One more result extends the verdict and the actions as `stop`'s loop does. */
  lemma StopSnoc(outs: seq<Outcome>, o: Outcome)
    ensures StopVerdict(outs + [o]) == if IsWaiting(o) then StopVerdict(outs) else Verdict(o)
    ensures StopActions(outs + [o]) == StopActions(outs) + (if o.Ok? then [o.value.1] else [])
  {
    assert (outs + [o])[..|outs|] == outs;
  }

  /** Regrouping the timeline as events are appended. */
  lemma ConcatAssoc(a: seq<Event>, b: seq<Event>, c: seq<Event>)
    ensures a + b + c == a + (b + c)
  {
  }

  /** How `stop`'s folds advance by one pending status. */
  lemma PendingStep(eff: Effects, pending: seq<WaitStatus>, i: nat, parent: Pid, bps: map<int, Breakpoint>, orc: Ptrace)
    requires i < |pending|
    ensures ProcessAll(eff, pending[..i + 1], bps, orc) == ProcessStatus(ProcessAll(eff, pending[..i], bps, orc), pending[i], bps, orc)
    ensures StopLog(pending[..i + 1], orc) == StopLog(pending[..i], orc) + StatusLog(pending[i], orc)
    ensures var o := StatusOutcome(pending[i], parent, bps, orc);
      StopVerdict(Outcomes(pending[..i + 1], parent, bps, orc))
        == (if IsWaiting(o) then StopVerdict(Outcomes(pending[..i], parent, bps, orc)) else Verdict(o))
      && StopActions(Outcomes(pending[..i + 1], parent, bps, orc))
        == StopActions(Outcomes(pending[..i], parent, bps, orc)) + (if o.Ok? then [o.value.1] else [])
  {
    assert pending[..i + 1][..i] == pending[..i];
    var o := StatusOutcome(pending[i], parent, bps, orc);
    assert Outcomes(pending[..i + 1], parent, bps, orc) == Outcomes(pending[..i], parent, bps, orc) + [o];
    StopSnoc(Outcomes(pending[..i], parent, bps, orc), o);
  }

  /**
   * Last-wins selection, stated without the fold: if every result waits, the
   * verdict is waiting; otherwise it is the verdict of the last deciding result.
   */
  lemma {:induction false} StopVerdictLastWins(outs: seq<Outcome>)
    ensures (forall k :: 0 <= k < |outs| ==> IsWaiting(outs[k])) ==> StopVerdict(outs) == Ok(Waiting)
    ensures forall k :: 0 <= k < |outs| && !IsWaiting(outs[k]) && (forall j :: k < j < |outs| ==> IsWaiting(outs[j])) ==>
      StopVerdict(outs) == Verdict(outs[k])
  {
    if outs != [] {
      var n := |outs| - 1;
      StopVerdictLastWins(outs[..n]);
      forall k | 0 <= k < |outs| && !IsWaiting(outs[k]) && (forall j :: k < j < |outs| ==> IsWaiting(outs[j]))
        ensures StopVerdict(outs) == Verdict(outs[k])
      {
        if k < n {
          assert IsWaiting(outs[n]);
          assert outs[..n][k] == outs[k];
          assert forall j :: k < j < n ==> outs[..n][j] == outs[j];
        }
      }
      if forall k :: 0 <= k < |outs| ==> IsWaiting(outs[k]) {
        assert forall k :: 0 <= k < n ==> outs[..n][k] == outs[k];
      }
    }
  }

  // ---------------------------------------------------------------------------
  // stop: executing the collected actions
  // ---------------------------------------------------------------------------

  /** The effect of executing a prefix of the actions: events logged, whether a tracee was resumed, the error that stopped it. */
  datatype ActionRun = ActionRun(events: seq<Event>, continued: bool, failed: Option<NixError>)

  function ExecAction(run: ActionRun, a: TracerAction, orc: Ptrace): ActionRun {
    match a
    case TryContinue(t) => ActionRun(run.events + [NewEvent(t.pid, "TryContinue", Ip(orc, t.pid))], true, None)
    case Continue(t) => ActionRun(run.events + [NewEvent(t.pid, "Continue", Ip(orc, t.pid))], true, orc.resumeError(a))
    case Step(t) => ActionRun(run.events + [NewEvent(t.pid, "Step", Ip(orc, t.pid))], true, orc.resumeError(a))
    case Detach(t) => ActionRun(run.events + [NewEvent(t.pid, "Detach", Ip(orc, t.pid))], true, orc.resumeError(a))
    case Nothing => run
  }

  function ExecActions(acts: seq<TracerAction>, orc: Ptrace): ActionRun {
    if acts == [] then ActionRun([], false, None)
    else
      var prev := ExecActions(acts[..|acts| - 1], orc);
      if prev.failed.Some? then prev else ExecAction(prev, acts[|acts| - 1], orc)
  }

  /** Once an action has failed, later actions are not executed. */
  lemma {:induction false} ExecActionsStuck(acts: seq<TracerAction>, n: nat, orc: Ptrace)
    requires n <= |acts| && ExecActions(acts[..n], orc).failed.Some?
    ensures ExecActions(acts, orc) == ExecActions(acts[..n], orc)
    decreases |acts| - n
  {
    if n < |acts| {
      assert acts[..n + 1][..n] == acts[..n];
      ExecActionsStuck(acts, n + 1, orc);
    } else {
      assert acts[..n] == acts;
    }
  }

  /**
   * Some executed action resumed a tracee exactly when some action is not
   * `Nothing`; so the fallback that continues the parent runs only when none does.
   */
  lemma {:induction false} ExecActionsContinued(acts: seq<TracerAction>, orc: Ptrace)
    requires ExecActions(acts, orc).failed.None?
    ensures ExecActions(acts, orc).continued <==> exists k :: 0 <= k < |acts| && acts[k].Resumes()
  {
    if acts != [] {
      var n := |acts| - 1;
      var prev := ExecActions(acts[..n], orc);
      assert prev.failed.None?;
      ExecActionsContinued(acts[..n], orc);
      if exists k :: 0 <= k < n && acts[..n][k].Resumes() {
        var k :| 0 <= k < n && acts[..n][k].Resumes();
        assert acts[k].Resumes();
      }
      if exists k :: 0 <= k < n && acts[k].Resumes() {
        var k :| 0 <= k < n && acts[k].Resumes();
        assert acts[..n][k].Resumes();
      }
    }
  }

  // ---------------------------------------------------------------------------
  // The tracer's state
  // ---------------------------------------------------------------------------

  /** `LinuxData`: the handle to the traced process. */
  class LinuxData {
    /** Recent results from waitpid, to be handled by `stop`. */
    var waitQueue: seq<WaitStatus>
    /** The pid currently being processed. */
    var current: Pid
    /** The pid of the test process. */
    var parent: Pid
    /** Breakpoints by address. */
    var breakpoints: map<int, Breakpoint>
    /** The instrumentation points and their hit counts (a borrowed slice). */
    const traces: array<Trace>
    var threadCount: int
    const timeline: Timeline

    ghost predicate Valid()
      reads this, timeline
    {
      timeline.Valid()
    }

    /** `LinuxData::new`. */
    constructor (traces: array<Trace>)
      ensures Valid() && fresh(timeline)
      ensures this.traces == traces && waitQueue == [] && current == 0 && parent == 0
      ensures breakpoints == map[] && threadCount == 0 && timeline.events == []
    {
      this.traces := traces;
      waitQueue := [];
      current := 0;
      parent := 0;
      breakpoints := map[];
      threadCount := 0;
      timeline := new Timeline();
    }

    /** `start`: `w` is the result of a non-blocking waitpid on the current pid. */
    method Start(w: WaitResult) returns (r: Result<Option<TestState>, RunError>)
      modifies this`current
      ensures w == Ok(StillAlive) ==> r == Ok(None) && current == old(current)
      ensures w.Ok? && w.value.Stopped? && w.value.signal == SIGTRAP ==>
        r == Ok(Some(Initialise)) && current == w.value.pid
      ensures w.Ok? && !w.value.StillAlive? && !(w.value.Stopped? && w.value.signal == SIGTRAP) ==>
        r == Err(TestRuntime("Unexpected signal when starting test")) && current == old(current)
      ensures w.Err? ==> r == Err(TestRuntime("Error when starting test: " + NixText(w.error))) && current == old(current)
    {
      if w.Err? {
        r := Err(TestRuntime("Error when starting test: " + NixText(w.error)));
      } else if w.value.StillAlive? {
        r := Ok(None);
      } else if w.value.Stopped? && w.value.signal == SIGTRAP {
        current := w.value.pid;
        r := Ok(Some(Initialise));
      } else {
        r := Err(TestRuntime("Unexpected signal when starting test"));
      }
    }

    /**
     * `init`: `traceError` is what `trace_children` returned, `created[i]` what
     * `Breakpoint::new` returned for the i-th trace, and `launched` whether
     * continuing the parent succeeded.
     */
    method Init(traceError: Option<NixError>, created: seq<Result<(), NixError>>, launched: bool)
      returns (r: Result<TestState, RunError>)
      requires |created| == traces.Length
      modifies this`breakpoints
      ensures traceError.Some? ==> r == Err(NixErr(traceError.value)) && breakpoints == old(breakpoints)
      ensures traceError.None? ==>
        var ins := InsertAll(old(breakpoints), current, traces[..], created);
        breakpoints == ins.0
        && r == (if ins.1.Some? then Err(ins.1.value)
                 else if launched then Ok(Waiting)
                 else Err(TestRuntime("Test didn't launch correctly")))
    {
      if traceError.Some? {
        return Err(NixErr(traceError.value));
      }
      ghost var ts := traces[..];
      for i := 0 to traces.Length
        invariant InsertAll(old(breakpoints), current, ts, created) == InsertAll(breakpoints, current, ts[i..], created[i..])
      {
        assert ts[i..][0] == traces[i] && ts[i..][1..] == ts[i + 1..] && created[i..][1..] == created[i + 1..];
        var t := traces[i];
        if t.address.Some? {
          var addr := t.address.value;
          match created[i]
          case Ok(_) =>
            breakpoints := breakpoints[addr := Breakpoint(current, addr)];
          case Err(e) =>
            if IsEio(e) {
              return Err(TestRuntime(PIE_MESSAGE));
            } else if e == UnsupportedOperation {
              // address clash: ignored
            } else {
              return Err(TestRuntime("Failed to instrument test executable"));
            }
        }
      }
      if launched {
        r := Ok(Waiting);
      } else {
        r := Err(TestRuntime("Test didn't launch correctly"));
      }
    }

    /**
     * `wait`: drains non-blocking waitpid results, `polls` in arrival order,
     * which end with a result that stops the loop.
     */
    method Wait(polls: seq<WaitResult>) returns (r: Result<Option<TestState>, RunError>)
      requires exists j :: 0 <= j < |polls| && EndsWait(polls[j])
      modifies this`waitQueue
      ensures var k := FirstEnd(polls);
        var pushed := QueuedAll(polls[..k + 1]);
        waitQueue == old(waitQueue) + pushed
        && r == (if polls[k].Err? then Err(TestRuntime("An error occurred while waiting for response from test: " + NixText(polls[k].error)))
                 else if pushed == [] then Ok(None)
                 else Ok(Some(TestState.Stopped)))
    {
      ghost var k := FirstEnd(polls);
      r := Ok(None);
      var running := true;
      var i := 0;
      while running
        invariant 0 <= i <= k + 1
        invariant running <==> i <= k
        invariant waitQueue == old(waitQueue) + QueuedAll(polls[..i])
        invariant running || polls[k].Ok? ==> r == (if QueuedAll(polls[..i]) == [] then Ok(None) else Ok(Some(TestState.Stopped)))
        invariant !running && polls[k].Err? ==>
          r == Err(TestRuntime("An error occurred while waiting for response from test: " + NixText(polls[k].error)))
        decreases k + 1 - i
      {
        assert polls[..i + 1][..i] == polls[..i];
        var w := polls[i];
        if w.Err? {
          running := false;
          r := Err(TestRuntime("An error occurred while waiting for response from test: " + NixText(w.error)));
        } else if w.value.StillAlive? {
          running := false;
        } else if w.value.Exited? || w.value.PtraceEvent? {
          waitQueue := waitQueue + [w.value];
          r := Ok(Some(TestState.Stopped));
          running := false;
        } else {
          waitQueue := waitQueue + [w.value];
          r := Ok(Some(TestState.Stopped));
        }
        i := i + 1;
      }
    }

    /** `handle_ptrace_event`. */
    method HandlePtraceEvent(child: Pid, sig: Signal, event: int, orc: Ptrace) returns (r: Outcome)
      requires Valid()
      modifies this`threadCount, timeline
      ensures Valid()
      ensures r == PtraceEventOutcome(child, sig, event, orc)
      ensures threadCount == old(threadCount) + ThreadDelta(child, sig, event, orc)
      ensures timeline.events == old(timeline.events) + PtraceEventLog(child, sig, event, orc)
    {
      var rip := EventAddr(Ip(orc, child));
      if sig == SIGTRAP {
        if event == PTRACE_EVENT_CLONE {
          if child in orc.eventData {
            var t := orc.eventData[child];
            timeline.AddEvent(NewThread(rip, child, AsI32(t)));
            threadCount := threadCount + 1;
            r := Ok((Waiting, Continue(Info(child))));
          } else {
            r := Err(TestRuntime("Error occurred upon test executable thread creation"));
          }
        } else if event == PTRACE_EVENT_FORK || event == PTRACE_EVENT_VFORK {
          timeline.AddEvent(NewEvent(child, "Fork Event", Ip(orc, child)));
          r := Ok((Waiting, Continue(Info(child))));
        } else if event == PTRACE_EVENT_EXEC {
          timeline.AddEvent(NewEvent(child, "Exec Event", Ip(orc, child)));
          r := Ok((Waiting, Detach(Info(child))));
        } else if event == PTRACE_EVENT_EXIT {
          timeline.AddEvent(NewEvent(child, "EXIT", Ip(orc, child)));
          threadCount := threadCount - 1;
          r := Ok((Waiting, TryContinue(Info(child))));
        } else {
          r := Err(TestRuntime("Unrecognised ptrace event " + IntToString(event)));
        }
      } else {
        r := Err(TestRuntime("Unexpected signal"));
      }
    }

    /** `collect_coverage_data` for the current thread, which has stopped at a SIGTRAP. */
    method CollectCoverageData(visited: set<int>, orc: Ptrace) returns (r: Outcome)
      modifies traces
      ensures var step := CoverageOf(current, breakpoints, visited, orc);
        r == Ok((Waiting, step.action))
        && traces[..] == (if step.updated then Bump(old(traces[..]), step.rip) else old(traces[..]))
    {
      var action: Option<TracerAction> := None;
      if current in orc.registers {
        var rip := AsU64(orc.registers[current] - 1);
        if rip in breakpoints {
          var updated: (bool, TracerAction);
          if rip in visited {
            // the breakpoint is jumped over; the result of jump_to is ignored
            updated := (true, Continue(Info(current)));
          } else {
            match orc.process(current, rip)
            case Some(x) =>
              updated := x;
            case None =>
              updated := (false, Continue(Info(current)));
          }
          if updated.0 {
            ghost var before := traces[..];
            for i := 0 to traces.Length
              invariant forall j :: 0 <= j < i ==> traces[j] == Bump(before, rip)[j]
              invariant forall j :: i <= j < traces.Length ==> traces[j] == before[j]
            {
              if traces[i].address == Some(rip) {
                traces[i] := traces[i].(count := traces[i].count + 1);
              }
            }
            assert traces[..] == Bump(before, rip);
          }
          action := Some(updated.1);
        }
      }
      r := Ok((Waiting, if action.Some? then action.value else Continue(Info(current))));
    }

    /** The body of `stop`'s first loop for one pending status. */
    method HandleStatus(s: WaitStatus, orc: Ptrace) returns (state: Outcome)
      requires Valid()
      modifies this, timeline, traces
      ensures Valid()
      ensures waitQueue == old(waitQueue) && parent == old(parent) && breakpoints == old(breakpoints)
      ensures state == StatusOutcome(s, parent, breakpoints, orc)
      ensures Effects(current, threadCount, traces[..])
        == ProcessStatus(Effects(old(current), old(threadCount), old(traces[..])), s, breakpoints, orc)
      ensures timeline.events == old(timeline.events) + StatusLog(s, orc)
    {
      match s
      case PtraceEvent(c, sig, e) =>
        var res := HandlePtraceEvent(c, sig, e, orc);
        if res.Ok? {
          state := res;
        } else {
          state := Err(TestRuntime("Error occurred when handling ptrace event: " + ErrorDebug(res.error)));
        }
      case Stopped(c, sig) =>
        if sig == SIGTRAP {
          timeline.AddEvent(NewEvent(c, "SIGTRAP", Ip(orc, c)));
          current := c;
          // collect_coverage_data never fails, so its error mapping is not reached
          state := CollectCoverageData({}, orc);
        } else if sig == SIGSTOP {
          timeline.AddEvent(NewEvent(c, "SIGSTOP", Ip(orc, c)));
          state := Ok((Waiting, Continue(Info(c))));
        } else if sig == SIGSEGV {
          timeline.AddEvent(NewEvent(c, "SIGSEGV", Ip(orc, c)));
          state := Err(TestRuntime("A segfault occurred while executing tests"));
        } else if sig == SIGILL {
          timeline.AddEvent(NewEvent(c, "SIGILL", Ip(orc, c)));
          state := Err(TestRuntime("Error running test - SIGILL raised in " + IntToString(c)));
        } else {
          state := Ok((Waiting, TryContinue(ProcessInfo(c, None))));
        }
      case Signaled(c, sig, f) =>
        var res := HandleSignaled(c, sig, f);
        if res.Ok? {
          state := res;
        } else {
          state := Err(TestRuntime("Attempting to handle tarpaulin being signaled"));
        }
      case Exited(c, ec) =>
        timeline.AddEvent(NewEvent(c, "EXITED " + IntToString(ec), Ip(orc, c)));
        if c == parent {
          state := Ok((End(ec), Nothing));
        } else {
          state := Ok((Waiting, TryContinue(Info(parent))));
        }
      case PtraceSyscall(_) =>
        state := Err(TestRuntime("An unexpected signal has been caught by tarpaulin!"));
      case Continued(_) =>
        state := Err(TestRuntime("An unexpected signal has been caught by tarpaulin!"));
      case StillAlive =>
        state := Err(TestRuntime("An unexpected signal has been caught by tarpaulin!"));
    }

    /** `stop`'s second loop: execute the actions in order, stopping at the first that fails. */
    method RunActions(actions: seq<TracerAction>, orc: Ptrace) returns (continued: bool, failure: Option<NixError>)
      requires Valid()
      modifies timeline
      ensures Valid()
      ensures var run := ExecActions(actions, orc);
        continued == run.continued && failure == run.failed
        && timeline.events == old(timeline.events) + run.events
    {
      continued := false;
      failure := None;
      var j := 0;
      while j < |actions|
        invariant 0 <= j <= |actions|
        invariant Valid()
        invariant var run := ExecActions(actions[..j], orc);
          failure.None? && run.failed.None? && continued == run.continued
          && timeline.events == old(timeline.events) + run.events
      {
        assert actions[..j + 1][..j] == actions[..j];
        var a := actions[j];
        assert ExecActions(actions[..j + 1], orc) == ExecAction(ExecActions(actions[..j], orc), a, orc);
        match a {
        case TryContinue(t) =>
          timeline.AddEvent(NewEvent(t.pid, "TryContinue", Ip(orc, t.pid)));
          continued := true;
          // the result of continue_exec is ignored
        case Continue(t) =>
          timeline.AddEvent(NewEvent(t.pid, "Continue", Ip(orc, t.pid)));
          continued := true;
          failure := orc.resumeError(a);
        case Step(t) =>
          timeline.AddEvent(NewEvent(t.pid, "Step", Ip(orc, t.pid)));
          continued := true;
          failure := orc.resumeError(a);
        case Detach(t) =>
          timeline.AddEvent(NewEvent(t.pid, "Detach", Ip(orc, t.pid)));
          continued := true;
          failure := orc.resumeError(a);
        case Nothing =>
        }
        if failure.Some? {
          ExecActionsStuck(actions, j + 1, orc);
          return;
        }
        j := j + 1;
      }
      assert actions[..j] == actions;
    }

    /** The fields that handling statuses changes. */
    ghost function Snapshot(): Effects
      reads this, traces
    {
      Effects(current, threadCount, traces[..])
    }

    /** `stop`'s first loop: handle the pending statuses in order, collecting the verdict and the actions. */
    method HandlePending(pending: seq<WaitStatus>, orc: Ptrace) returns (r: Result<TestState, RunError>, actions: seq<TracerAction>)
      requires Valid()
      modifies this, timeline, traces
      ensures Valid()
      ensures waitQueue == old(waitQueue) && parent == old(parent) && breakpoints == old(breakpoints)
      ensures Snapshot() == ProcessAll(old(Snapshot()), pending, breakpoints, orc)
      ensures timeline.events == old(timeline.events) + StopLog(pending, orc)
      ensures r == StopVerdict(Outcomes(pending, parent, breakpoints, orc))
      ensures actions == StopActions(Outcomes(pending, parent, breakpoints, orc))
    {
      actions := [];
      r := Ok(Waiting);
      var i := 0;
      while i < |pending|
        invariant 0 <= i <= |pending|
        invariant Valid()
        invariant waitQueue == old(waitQueue) && parent == old(parent) && breakpoints == old(breakpoints)
        invariant Snapshot() == ProcessAll(old(Snapshot()), pending[..i], breakpoints, orc)
        invariant timeline.events == old(timeline.events) + StopLog(pending[..i], orc)
        invariant r == StopVerdict(Outcomes(pending[..i], parent, breakpoints, orc))
        invariant actions == StopActions(Outcomes(pending[..i], parent, breakpoints, orc))
      {
        PendingStep(old(Snapshot()), pending, i, parent, breakpoints, orc);
        ConcatAssoc(old(timeline.events), StopLog(pending[..i], orc), StatusLog(pending[i], orc));
        var state := HandleStatus(pending[i], orc);
        match state {
          case Ok(ctx) =>
            if !ctx.0.Waiting? {
              r := Ok(ctx.0);
            }
            actions := actions + [ctx.1];
          case Err(e) =>
            r := Err(e);
        }
        i := i + 1;
      }
      assert pending[..i] == pending;
    }

    /**
     * `stop`: handles every queued status in order, then executes the collected
     * actions; continues the parent if none of them resumed a tracee (`fallback`).
     */
    method Stop(orc: Ptrace) returns (r: Result<TestState, RunError>, fallback: bool)
      requires Valid()
      modifies this, timeline, traces
      ensures Valid()
      ensures waitQueue == [] && parent == old(parent) && breakpoints == old(breakpoints)
      ensures Snapshot() == ProcessAll(old(Snapshot()), old(waitQueue), breakpoints, orc)
      ensures var outs := Outcomes(old(waitQueue), parent, breakpoints, orc);
        var run := ExecActions(StopActions(outs), orc);
        timeline.events == old(timeline.events) + StopLog(old(waitQueue), orc) + run.events
        && r == (if run.failed.Some? then Err(NixErr(run.failed.value)) else StopVerdict(outs))
        && fallback == (run.failed.None? && !run.continued)
    {
      var pending := waitQueue;
      waitQueue := [];
      var actions;
      r, actions := HandlePending(pending, orc);
      var continued, failure := RunActions(actions, orc);
      if failure.Some? {
        r := Err(NixErr(failure.value));
        fallback := false;
        return;
      }
      // when no action resumed a tracee the parent is continued; that result is ignored
      fallback := !continued;
    }
  }

  /** `create_state_machine`: a fresh tracer for test process `test`, in the start state. */
  method CreateStateMachine(test: Pid, traces: array<Trace>) returns (state: TestState, data: LinuxData)
    ensures fresh(data) && fresh(data.timeline) && data.Valid()
    ensures state == Start && data.parent == test && data.traces == traces
    ensures data.waitQueue == [] && data.current == 0 && data.breakpoints == map[]
    ensures data.threadCount == 0 && data.timeline.events == []
  {
    data := new LinuxData(traces);
    data.parent := test;
    state := Start;
  }
}
