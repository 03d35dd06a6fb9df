/**
 * The slice of the Win32 API the wrapper calls, as abstract outcomes.
 *
 * Nothing here talks to an operating system. A `World` fixes what every
 * primitive answers during one execution of the wrapper, and an `Os` object
 * serves those answers while recording, in `trace`, every call made and in
 * which order. Properties about ordering, about calls that must not happen and
 * about handles released exactly once are properties of that trace.
 */
module Win32 {
  import opened Wrappers

  /** `LARGE_INTEGER::QuadPart`. */
  type Int64 = x: int | -0x8000_0000_0000_0000 <= x < 0x8000_0000_0000_0000
  /** `std::uint64_t`. */
  type UInt64 = x: int | 0 <= x < 0x1_0000_0000_0000_0000
  /** `DWORD`. */
  type UInt32 = x: int | 0 <= x < 0x1_0000_0000

  /** A `HANDLE`; 0 is the null handle. */
  type Handle = nat

  /** What a successful `QueryPerformanceFrequency` reports: always positive. */
  type Frequency = f: Int64 | f > 0 witness 1

  /** The value `WaitForSingleObject` returns when the object was signalled. */
  const WAIT_OBJECT_0: UInt32 := 0

  /** The two handles a successful `CreateProcess` fills into `PROCESS_INFORMATION`. */
  datatype ProcessInformation = ProcessInformation(hProcess: Handle, hThread: Handle)

  /**
   * What a call that reports failure by returning zero answers: its output on
   * success, or on failure the code `GetLastError` will then return.
   */
  datatype Answer<T> = Ok(value: T) | Failed(lastError: UInt32)

  /** The answers the operating system gives during one execution. */
  datatype World = World(
    firstCounter: Answer<Int64>,      // the first QueryPerformanceCounter
    laterCounter: Answer<Int64>,      // every later QueryPerformanceCounter
    frequency: Answer<Frequency>,     // QueryPerformanceFrequency
    create: Answer<ProcessInformation>, // CreateProcess
    wait: UInt32,                     // WaitForSingleObject
    exitCode: Answer<UInt32>)         // GetExitCodeProcess

  /** What Windows guarantees of a successful `CreateProcess`: two distinct, non-null handles. */
  predicate WellFormed(w: World) {
    w.create.Ok? ==>
      w.create.value.hProcess != 0 && w.create.value.hThread != 0 &&
      w.create.value.hProcess != w.create.value.hThread
  }

  /** One call into the operating system, as it appears in the trace. */
  datatype Call =
    | QueryCounter
    | QueryFrequency
    | Create(commandLine: string)
    | Wait(handle: Handle)
    | GetExitCode(handle: Handle)
    | Close(handle: Handle)

  /** A `std::runtime_error` with its `what()` text, and the error code printed just before it was thrown, if any. */
  datatype RuntimeError = RuntimeError(what: string, errorCode: Option<UInt32>)

  /** The error thrown with message `what` after a failed call whose `GetLastError` was `code`. */
  function CallFailed(what: string, code: UInt32): RuntimeError
  {
    RuntimeError(what, Some(code))
  }

  class Os {
    const world: World
    /** Every call made so far, oldest first. */
    var trace: seq<Call>

    constructor (world: World)
      ensures this.world == world && trace == []
    {
      this.world := world;
      trace := [];
    }

    /** The answer the next `QueryPerformanceCounter` gets. */
    function CounterAnswer(): Answer<Int64>
      reads this
    {
      if QueryCounter in trace then world.laterCounter else world.firstCounter
    }

    method QueryPerformanceCounter() returns (a: Answer<Int64>)
      modifies this
      ensures trace == old(trace) + [QueryCounter]
      ensures a == old(CounterAnswer())
    {
      a := CounterAnswer();
      trace := trace + [QueryCounter];
    }

    method QueryPerformanceFrequency() returns (a: Answer<Frequency>)
      modifies this
      ensures trace == old(trace) + [QueryFrequency]
      ensures a == world.frequency
    {
      a := world.frequency;
      trace := trace + [QueryFrequency];
    }

    method CreateProcess(commandLine: string) returns (a: Answer<ProcessInformation>)
      modifies this
      ensures trace == old(trace) + [Create(commandLine)]
      ensures a == world.create
    {
      a := world.create;
      trace := trace + [Create(commandLine)];
    }

    /** `WaitForSingleObject(handle, INFINITE)`. */
    method WaitForSingleObject(handle: Handle) returns (status: UInt32)
      modifies this
      ensures trace == old(trace) + [Wait(handle)]
      ensures status == world.wait
    {
      status := world.wait;
      trace := trace + [Wait(handle)];
    }

    method GetExitCodeProcess(handle: Handle) returns (a: Answer<UInt32>)
      modifies this
      ensures trace == old(trace) + [GetExitCode(handle)]
      ensures a == world.exitCode
    {
      a := world.exitCode;
      trace := trace + [GetExitCode(handle)];
    }

    method CloseHandle(handle: Handle)
      modifies this
      ensures trace == old(trace) + [Close(handle)]
    {
      trace := trace + [Close(handle)];
    }
  }
}
