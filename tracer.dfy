/**
 * Values shared by the tracer: process ids, signals and wait statuses as the
 * nix crate reports them, the state machine's states and actions, the run error
 * type and the per-address coverage record.
 */
module Tracer {
  import opened Wrappers
  import opened Decimal

  /** A process or thread id (`pid_t`, a signed 32-bit integer). */
  type Pid = int

  const I32_MIN: int := -0x8000_0000
  const I32_MAX: int := 0x7fff_ffff
  const I64_MIN: int := -0x8000_0000_0000_0000
  const U64_MODULUS: int := 0x1_0000_0000_0000_0000

  /** Rust's `x as u64` on a 64-bit signed value: two's-complement reinterpretation. */
  function AsU64(x: int): (r: int)
    ensures 0 <= r < U64_MODULUS
    ensures 0 <= x < U64_MODULUS ==> r == x
    ensures -U64_MODULUS <= x < 0 ==> r == x + U64_MODULUS
  {
    x % U64_MODULUS
  }

  /** Rust's `x as pid_t` on a 64-bit value: keeps the low 32 bits, read as signed. */
  function AsI32(x: int): (r: int)
    ensures I32_MIN <= r <= I32_MAX
    ensures I32_MIN <= x <= I32_MAX ==> r == x
    ensures (x - r) % 0x1_0000_0000 == 0
  {
    var low := x % 0x1_0000_0000;
    if low <= I32_MAX then low else low - 0x1_0000_0000
  }

  /** The signals the tracer tells apart; every other signal is `OtherSignal`. */
  datatype Signal = SIGTRAP | SIGSTOP | SIGSEGV | SIGILL | OtherSignal(number: int)

  /** An errno value: its number, its Debug name (`EIO`) and its description. */
  datatype Errno = Errno(code: int, name: string, desc: string)

  const EIO_CODE: int := 5

  /** nix::Error. */
  datatype NixError = Sys(errno: Errno) | InvalidPath | InvalidUtf8 | UnsupportedOperation

  /** nix's WaitStatus, the result of one successful `waitpid`. */
  datatype WaitStatus =
    | Exited(pid: Pid, code: int)
    | Signaled(pid: Pid, signal: Signal, coreDumped: bool)
    | Stopped(pid: Pid, signal: Signal)
    | PtraceEvent(pid: Pid, signal: Signal, event: int)
    | PtraceSyscall(pid: Pid)
    | Continued(pid: Pid)
    | StillAlive

  /** The result of one `waitpid` call. */
  type WaitResult = Result<WaitStatus, NixError>

  /** The tracer's states (their start-time payloads are not modelled). */
  datatype TestState = Start | Initialise | Waiting | Stopped | End(code: int)

  /** A process to resume and the signal to deliver with it. */
  datatype ProcessInfo = ProcessInfo(pid: Pid, signal: Option<Signal>)

  /** `ProcessInfo::from(pid)`: no signal to deliver. */
  function Info(pid: Pid): ProcessInfo {
    ProcessInfo(pid, None)
  }

  /** What the tracer should do to a tracee once a status has been handled. */
  datatype TracerAction =
    | TryContinue(info: ProcessInfo)
    | Continue(info: ProcessInfo)
    | Step(info: ProcessInfo)
    | Detach(info: ProcessInfo)
    | Nothing
  {
    /** Whether executing this action resumes a tracee. */
    predicate Resumes() {
      !Nothing?
    }
  }

  /** The crate's `Error` type; `IO` carries the Debug text of the io::Error. */
  datatype RunError =
    | TestDoesntExist
    | ForkFail
    | Internal
    | TestFail
    | TraceError(msg: string)   // the variant `Trace(String)`
    | TestRuntime(msg: string)
    | BadToml(msg: string)
    | Sys
    | StateMachine(msg: string)
    | NixErr(nix: NixError)
    | IO(text: string)

  /** One instrumentation point and the number of times it was hit. */
  datatype Trace = Trace(address: Option<int>, count: nat)

  /** `Trace::new(addr)`. */
  function NewTrace(addr: int): (t: Trace)
    ensures t.address == Some(addr) && t.count == 0
  {
    Trace(Some(addr), 0)
  }

  /** Display text of a nix error (`{}`): an errno shows as its name, a colon and its description. */
  function NixText(e: NixError): string {
    match e
    case Sys(errno) => errno.name + ": " + errno.desc
    case InvalidPath => "Invalid path"
    case InvalidUtf8 => "Invalid UTF-8 string"
    case UnsupportedOperation => "Unsupported Operation"
  }

  /** Debug text of a nix error (`{:?}`). */
  function NixDebug(e: NixError): string {
    match e
    case Sys(errno) => "Sys(" + errno.name + ")"
    case InvalidPath => "InvalidPath"
    case InvalidUtf8 => "InvalidUtf8"
    case UnsupportedOperation => "UnsupportedOperation"
  }

  /** Debug text of a string: quoted, with '"' and '\' escaped. */
  function QuoteDebug(s: string): (r: string)
    ensures |r| >= |s| + 2 && r[0] == '"' && r[|r| - 1] == '"'
  {
    "\"" + EscapeDebug(s) + "\""
  }

  function EscapeDebug(s: string): (r: string)
    ensures |r| >= |s|
  {
    if s == [] then []
    else (if s[0] == '"' || s[0] == '\\' then ['\\', s[0]] else [s[0]]) + EscapeDebug(s[1..])
  }

  /** Debug text of a run error, as `format!("{:?}", e)` writes it (derived Debug). */
  function ErrorDebug(e: RunError): string {
    match e
    case TestDoesntExist => "TestDoesntExist"
    case ForkFail => "ForkFail"
    case Internal => "Internal"
    case TestFail => "TestFail"
    case TraceError(m) => "Trace(" + QuoteDebug(m) + ")"
    case TestRuntime(m) => "TestRuntime(" + QuoteDebug(m) + ")"
    case BadToml(m) => "BadToml(" + QuoteDebug(m) + ")"
    case Sys => "Sys"
    case StateMachine(m) => "StateMachine(" + QuoteDebug(m) + ")"
    case NixErr(n) => "NixError(" + NixDebug(n) + ")"
    case IO(t) => "IO(" + t + ")"
  }
}
