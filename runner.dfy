/**
 * `printStats`, `run` and `main`: the sequence validate, start the timer,
 * create the child, wait for it, stop the timer, report, and the mapping of
 * the outcome to the wrapper's return code.
 *
 * `Plan` states, as a value, what one execution does against a given `World`:
 * the result and the exact calls made. `Run` and `WrapperMain` are proved to
 * do exactly that, and the lemmas below state the properties of `Plan`.
 */
module Runner {
  import opened Wrappers
  import opened Win32
  import opened CommandLine
  import opened Clock
  import opened Timing
  import opened Handles

  /** What `printStats` reports: the child's exit code and the wall time, raw and split. */
  datatype Stats = Stats(exitCode: UInt32, wallMicros: UInt64, wallClock: Hms)

  /** The result of one execution and every call it made, in order. */
  datatype Execution = Execution(result: Result<Stats, RuntimeError>, calls: seq<Call>)

  const NoProgramName := RuntimeError("No program name.", None)
  const WaitFailed := RuntimeError("WaitForSingleObject failed", None)
  const CreateFailedMessage := "CreateProcess failed"
  const ExitCodeFailedMessage := "GetExitCodeProcess failed"

  /** What `printStats(handle)` does when the timer holds `begin` and `end`. */
  function StatsPlan(handle: Handle, begin: Int64, end: Int64, w: World): Execution
  {
    match w.exitCode
    case Failed(e) =>
      Execution(Failure(CallFailed(ExitCodeFailedMessage, e)), [GetExitCode(handle)])
    case Ok(code) =>
      match w.frequency
      case Failed(e) =>
        Execution(Failure(FrequencyFailed(e)), [GetExitCode(handle), QueryFrequency])
      case Ok(freq) =>
        var us := TimerMicros(begin, end, freq);
        Execution(Success(Stats(code, us, HmsOf(us))), [GetExitCode(handle), QueryFrequency])
  }

  /** The handles released when `run`'s scope ends: `ht`'s destructor runs before `hp`'s. */
  function Release(pi: ProcessInformation): seq<Call>
  {
    CloseCalls(pi.hThread) + CloseCalls(pi.hProcess)
  }

  /**
   * What `run` does once the child exists, up to the end of its scope: wait
   * for the child, stop the timer, report.
   */
  function Supervise(pi: ProcessInformation, begin: Int64, w: World): Execution
  {
    if w.wait != WAIT_OBJECT_0 then Execution(Failure(WaitFailed), [Wait(pi.hProcess)])
    else
      match w.laterCounter
      case Failed(e) => Execution(Failure(CounterFailed(e)), [Wait(pi.hProcess), QueryCounter])
      case Ok(end) =>
        var stats := StatsPlan(pi.hProcess, begin, end, w);
        Execution(stats.result, [Wait(pi.hProcess), QueryCounter] + stats.calls)
  }

  /** What `run` does from `CreateProcess(cmd)` on, once the timer holds `begin`. */
  function Launch(cmd: string, begin: Int64, w: World): Execution
  {
    match w.create
    case Failed(e) => Execution(Failure(CallFailed(CreateFailedMessage, e)), [Create(cmd)])
    case Ok(pi) =>
      var rest := Supervise(pi, begin, w);
      Execution(rest.result, [Create(cmd)] + rest.calls + Release(pi))
  }

  /** What `run(args)` does when the operating system answers as `w` says. */
  function Plan(args: seq<string>, w: World): Execution
  {
    if |args| == 0 then Execution(Failure(NoProgramName), [])
    else
      match w.firstCounter
      case Failed(e) => Execution(Failure(CounterFailed(e)), [QueryCounter])
      case Ok(begin) =>
        var launched := Launch(Join(args), begin, w);
        Execution(launched.result, [QueryCounter] + launched.calls)
  }

  method PrintStats(handle: Handle, os: Os, timer: RealTimer) returns (r: Result<Stats, RuntimeError>)
    modifies os
    ensures r == StatsPlan(handle, timer.begin, timer.end, os.world).result
    ensures os.trace == old(os.trace) + StatsPlan(handle, timer.begin, timer.end, os.world).calls
  {
    var code := os.GetExitCodeProcess(handle);
    if code.Failed? {
      return Failure(CallFailed(ExitCodeFailedMessage, code.lastError));
    }
    var duration := timer.Duration(os);
    if duration.Failure? {
      return Failure(duration.error);
    }
    var hrs, min, sec := SplitDuration(duration.value);
    r := Success(Stats(code.value, duration.value, Hms(hrs, min, sec)));
  }

  /** The wait succeeded and the timer's second counter reading with it: the timer's end was set. */
  predicate ChildStopped(w: World)
  {
    w.wait == WAIT_OBJECT_0 && w.laterCounter.Ok?
  }

  /** The part of `run` between `CreateProcess` and the end of the scope that owns the handles. */
  method SuperviseChild(procInfo: ProcessInformation, os: Os, timer: RealTimer) returns (r: Result<Stats, RuntimeError>)
    requires QueryCounter in os.trace
    modifies os, timer`end
    ensures r == Supervise(procInfo, timer.begin, os.world).result
    ensures os.trace == old(os.trace) + Supervise(procInfo, timer.begin, os.world).calls
    ensures timer.end == if ChildStopped(os.world) then os.world.laterCounter.value else old(timer.end)
  {
    var status := os.WaitForSingleObject(procInfo.hProcess);
    if status != WAIT_OBJECT_0 {
      return Failure(WaitFailed);
    }
    var stopped := timer.Stop(os);
    if stopped.Fail? {
      return Failure(stopped.error);
    }
    r := PrintStats(procInfo.hProcess, os, timer);
  }

  /**
   * The scope of `run` that owns the child's handles: `hp` and `ht` take them,
   * the child is supervised, and the destructors release `ht` and then `hp`
   * whichever way the supervision ends.
   */
  method OwnChild(procInfo: ProcessInformation, os: Os, timer: RealTimer) returns (r: Result<Stats, RuntimeError>)
    requires QueryCounter in os.trace
    modifies os, timer`end
    ensures r == Supervise(procInfo, timer.begin, os.world).result
    ensures os.trace == old(os.trace) + Supervise(procInfo, timer.begin, os.world).calls + Release(procInfo)
    ensures timer.end == if ChildStopped(os.world) then os.world.laterCounter.value else old(timer.end)
  {
    var hp := new AutoHandle();
    hp.handle := procInfo.hProcess;
    var ht := new AutoHandle();
    ht.handle := procInfo.hThread;
    r := SuperviseChild(procInfo, os, timer);
    // the end of the scope: the destructors of ht and then hp
    ht.Close(os);
    hp.Close(os);
  }

  /** The part of `run` from `CreateProcess` to the end of its scope. */
  method LaunchChild(cmd: string, os: Os, timer: RealTimer) returns (r: Result<Stats, RuntimeError>)
    requires QueryCounter in os.trace
    modifies os, timer`end
    ensures r == Launch(cmd, timer.begin, os.world).result
    ensures os.trace == old(os.trace) + Launch(cmd, timer.begin, os.world).calls
    ensures timer.end ==
      if os.world.create.Ok? && ChildStopped(os.world) then os.world.laterCounter.value else old(timer.end)
  {
    var created := os.CreateProcess(cmd);
    if created.Failed? {
      return Failure(CallFailed(CreateFailedMessage, created.lastError));
    }
    r := OwnChild(created.value, os, timer);
  }

  method Run(args: seq<string>, os: Os, timer: RealTimer) returns (r: Result<Stats, RuntimeError>)
    requires QueryCounter !in os.trace
    modifies os, timer
    ensures r == Plan(args, os.world).result
    ensures os.trace == old(os.trace) + Plan(args, os.world).calls
    ensures timer.begin ==
      if |args| > 0 && os.world.firstCounter.Ok? then os.world.firstCounter.value else old(timer.begin)
    ensures timer.end ==
      if |args| > 0 && os.world.firstCounter.Ok? && os.world.create.Ok? && ChildStopped(os.world)
      then os.world.laterCounter.value else old(timer.end)
  {
    if |args| == 0 {
      return Failure(NoProgramName);
    }
    var cmd := JoinCommand(args);
    var started := timer.Start(os);
    if started.Fail? {
      return Failure(started.error);
    }
    r := LaunchChild(cmd, os, timer);
  }

  /** `main`: runs the arguments after the wrapper's own name; 0 when `run` completes, 1 when it throws. */
  method WrapperMain(argv: seq<string>, os: Os, timer: RealTimer) returns (code: int)
    requires |argv| >= 1 && QueryCounter !in os.trace
    modifies os, timer
    ensures code == if Plan(argv[1..], os.world).result.Success? then 0 else 1
    ensures os.trace == old(os.trace) + Plan(argv[1..], os.world).calls
    ensures timer.begin ==
      if |argv| > 1 && os.world.firstCounter.Ok? then os.world.firstCounter.value else old(timer.begin)
    ensures timer.end ==
      if |argv| > 1 && os.world.firstCounter.Ok? && os.world.create.Ok? && ChildStopped(os.world)
      then os.world.laterCounter.value else old(timer.end)
  {
    var r := Run(argv[1..], os, timer);
    if r.Success? {
      return 0;
    }
    return 1;
  }
}
