# wintime, modelled in Dafny

wintime is a small Windows wrapper. It joins its own arguments into a command line. It reads the
performance counter, starts that command as a child process with `CreateProcess`, and waits for the
child with `WaitForSingleObject`. Then it reads the counter again and prints two things: the child's
exit code, and the elapsed wall time in microseconds and as `h:mm:ss`. `main` returns 0 when all of
this completes. It returns 1 when any stage throws.

This project models that sequence. It does not model the Win32 API itself. A `World`
(`win32.dfy`) fixes what every primitive answers: a value on success, or on failure the code
`GetLastError` would give. An `Os` object serves those answers and records each call, in order, in
its `trace`. Later stages see only those recorded answers. The pieces:

- `command_line.dfy`: the join of the argument vector, one space between arguments, with no quoting.
- `clock.dfy`: the hours/minutes/seconds split of `printStats`, with `arithmetic.dfy` for the division facts behind it.
- `timing.dfy`: `RealTimer` as a class whose `begin`/`end` fields `Start`/`Stop` overwrite, and the duration formula with its uint64 wrap-around written out.
- `handles.dfy`: `AutoHandle` as a class whose `Close` releases a non-null handle once and then zeroes it.
- `runner.dfy`: `printStats`, `run` and `main` as methods, plus `Plan`, a pure function giving the result and the exact call sequence of `run` for any `World`.
- `run_properties.dfy`: what every run does, stated and proved of `Plan`.

The first `QueryPerformanceCounter` call gets `World.firstCounter`. Every later one gets
`World.laterCounter`. `run` is therefore required to start before any counter read has been made.

One might expect the wrapper to exit with the child's exit code. The code returns 0 after every
completed run, whatever code it printed (sources/main.cpp:146-147). The model follows the code:
`ExitStatusIgnoresChild` proves this.

## Model

| member | source | states |
|---|---|---|
| `CommandLine.Join` | sources/main.cpp:106-111 | the joined command's length is the sum of the argument lengths plus one separator between each two arguments |
| `CommandLine.JoinCommand` | sources/main.cpp:106-111 | the in-place append loop builds exactly `args[0]` followed by `" " + args[i]` for each later `i`, in order |
| `CommandLine.JoinAt` | sources/main.cpp:106-111 | each argument stands unchanged at its offset (the lengths of the earlier arguments plus one per separator), and a space precedes every argument after the first; with the length this determines the command completely |
| `CommandLine.SplitJoin` | sources/main.cpp:106-111 | when no argument contains a space, cutting the command at spaces gives back the argument vector: the join loses nothing |
| `CommandLine.JoinMergesSpacedArguments` | sources/main.cpp:106-111 | the join does not quote: replacing any two adjacent arguments by one argument holding both with a space between them leaves the command line unchanged |
| `CommandLine.JoinAppend` | sources/main.cpp:106-111 | joining two nonempty argument vectors one after the other gives their joins with one space between them |
| `CommandLine.JoinCongruent` | sources/main.cpp:106-111 | replacing a block of consecutive arguments by another block with the same join leaves the command line unchanged |
| `Clock.HmsOf` | sources/main.cpp:90-94 | the reading `printStats` computes: whole seconds `d / 1000000`, hours `sec / 60 / 60`, minutes `sec / 60 % 60`, seconds `sec % 60` |
| `Clock.SplitDuration` | sources/main.cpp:90-94 | after the reassignments `sec %= 60; min %= 60`, `min < 60`, `sec < 60`, and `hrs*3600 + min*60 + sec` is the whole seconds of the duration |
| `Clock.HmsOfLaws` | sources/main.cpp:90-94 | the split keeps minutes and seconds below 60, recomposes to `d / 1000000`, and its hours are `d / 3600000000` |
| `Clock.HmsOfUnique` | sources/main.cpp:90-94 | any reading with minutes and seconds below 60 that recomposes to the whole seconds is the split: the split is the inverse of recomposition |
| `Timing.U64` | sources/main.cpp:71 | the conversion of a signed difference or of a product to `std::uint64_t`: the value reduced modulo 2^64 |
| `Timing.TimerMicros` | sources/main.cpp:71 | the value `duration` returns: the counter difference converted to uint64, multiplied by 1000000 modulo 2^64, divided by the positive frequency |
| `Timing.TimerMicrosExact` | sources/main.cpp:71 | with `begin <= end` and no uint64 overflow, the duration is `1000000 * (end - begin) / freq` |
| `Timing.TimerMicrosZero` | sources/main.cpp:71 | the duration is 0 when `end == begin` |
| `Timing.TimerMicrosMonotone` | sources/main.cpp:71 | without overflow, a later `end` never gives a shorter duration |
| `Timing.TimerMicrosBackwards` | sources/main.cpp:71 | a counter that went back `d` ticks, with `1000000 * d` at most `2^64`, gives `(2^64 - 1000000 * d) mod 2^64` divided by the frequency, not a negative value, because the difference and the product are unsigned |
| `Timing.RealTimer.constructor` | sources/main.cpp:43 | both counter readings start at zero |
| `Timing.RealTimer.Start` | sources/main.cpp:45-52 | one counter query; on success `begin` holds its value, on failure "QueryPerformanceCounter failed" with the error code and `begin` unchanged; `end` is never touched |
| `Timing.RealTimer.Stop` | sources/main.cpp:54-61 | the same for `end`, leaving `begin` untouched |
| `Timing.RealTimer.Duration` | sources/main.cpp:63-72 | one frequency query; on success the duration formula of the stored readings, on failure "QueryPerformanceFrequency failed" with the error code; the timer is not changed |
| `Win32.Os.QueryPerformanceCounter` | sources/main.cpp:47 | records one counter query; the first one gets the first reading and later ones the later reading |
| `Win32.Os.QueryPerformanceFrequency` | sources/main.cpp:66 | records one frequency query and answers the world's frequency, positive on success |
| `Win32.Os.CreateProcess` | sources/main.cpp:123 | records the creation with the exact command line passed |
| `Win32.Os.WaitForSingleObject` | sources/main.cpp:134 | records a wait on the given handle and answers the world's wait status |
| `Win32.Os.GetExitCodeProcess` | sources/main.cpp:79 | records an exit-code query on the given handle |
| `Win32.Os.CloseHandle` | sources/main.cpp:30 | records the release of the given handle |
| `Handles.CloseCalls` | sources/main.cpp:28-32 | the calls `close` makes: one `CloseHandle` for a non-null handle, none for the null handle |
| `Handles.AutoHandle.constructor` | sources/main.cpp:24 | a new owner holds the null handle |
| `Handles.AutoHandle.Close` | sources/main.cpp:26-33 | afterwards the handle is 0; one `CloseHandle` of the old handle is issued if it was non-null, none if it was null |
| `Handles.CloseTwice` | sources/main.cpp:26-38 | closing twice issues exactly one `CloseHandle` for a non-null handle and none for a null one: close is idempotent |
| `Runner.StatsPlan` | sources/main.cpp:75-99 | what `printStats` does: the exit-code query, then the frequency query; the first failure throws its message and code, otherwise the exit code, the duration and its split are reported |
| `Runner.Release` | sources/main.cpp:129-132 | the calls of the destructors (lines 35-38) of the two owners declared here, at the end of `run`'s scope: `ht`'s close, then `hp`'s, the reverse of their declaration |
| `Runner.Supervise` | sources/main.cpp:134-139 | what `run` does once the child exists: the wait (a failure throws without a code), then the second counter read, then `StatsPlan` with the two readings |
| `Runner.Launch` | sources/main.cpp:123-139 | what `run` does from `CreateProcess` on: a failed creation throws with its code and releases nothing; a created child is supervised and then both its handles are released |
| `Runner.Plan` | sources/main.cpp:101-140 | what `run` does: no arguments throws "No program name." with no call; otherwise the first counter read (a failure throws), then `Launch` with the joined command line |
| `Runner.PrintStats` | sources/main.cpp:75-99 | queries the exit code, then the timer's duration; reports both with the h/m/s split, or throws at the first failing query and makes no later call |
| `Runner.SuperviseChild` | sources/main.cpp:134-139 | waits on the process handle, then stops the timer, then calls `printStats`; a failed wait throws "WaitForSingleObject failed" and nothing later happens; the timer's `end` holds the second counter reading when the wait and that reading succeeded, and is unchanged otherwise |
| `Runner.OwnChild` | sources/main.cpp:129-139 | `hp` and `ht` take the process and thread handles, the child is supervised, and at the end of the scope the thread handle and then the process handle are released, whichever way the supervision ended |
| `Runner.LaunchChild` | sources/main.cpp:123-139 | creates the child with the given command line; a failed creation throws "CreateProcess failed" with the error code, owns nothing and closes nothing |
| `Runner.Run` | sources/main.cpp:101-140 | the result and the calls, in order, are those of `Plan`, including both destructors at the end of the scope; the timer's `begin` holds the first counter reading when one was made and succeeded, its `end` the second one when it was made and succeeded, and each is unchanged otherwise |
| `Runner.WrapperMain` | sources/main.cpp:142-164 | runs the arguments after the wrapper's own name; returns 0 exactly when `run` completes and 1 whenever it throws; the timer ends as `Run` leaves it |
| `RunProperties.NoCallWithoutProgramName` | sources/main.cpp:103-104 | with no arguments, `run` throws "No program name." and makes no call at all; with arguments it never does either |
| `RunProperties.StagesRunInOrder` | sources/main.cpp:121-139 | with a program name, the calls are exactly the stages counter, `CreateProcess(Join(args))`, wait, counter, exit code, frequency up to `FirstFailing(w)`, the first stage whose answer fails (the sixth when none before it does), and none after it; then the two releases once the child exists; success needs all six, and a failure carries the message of that stage |
| `RunProperties.StagesAfterCreate` | sources/main.cpp:129-139 | once the child exists, the run stops at `FirstFailing(w)`, which is the wait or a later stage, with the handles released last |
| `RunProperties.SuperviseStages` | sources/main.cpp:134-139 | supervision makes the stages from the wait to the first failing one and fails with that stage's message, or makes all of them |
| `RunProperties.CreatedCalls` | sources/main.cpp:121-135 | once the child exists, the run is the counter read and the creation, then the supervision of the child, then the release of both handles |
| `RunProperties.HandlesReleasedExactlyOnce` | sources/main.cpp:129-135 | once `CreateProcess` has succeeded, the thread handle and then the process handle are closed as the last two calls, each exactly once, and nothing is closed before, on every path out of `run` |
| `RunProperties.NothingClosedWithoutChild` | sources/main.cpp:103-127 | when `CreateProcess` was not reached or failed, no handle is closed |
| `RunProperties.RunSucceedsIff` | sources/main.cpp:101-140 | `run` completes exactly when a program is named and every Win32 call it makes succeeds |
| `RunProperties.SuccessReportsChild` | sources/main.cpp:79-95 | a completed run reports the child's exit code and the scaled counter difference, split into a valid `h:mm:ss` reading |
| `RunProperties.ExitStatusIgnoresChild` | sources/main.cpp:146-147 | whether `main` returns 0 does not depend on the child's exit code |

## Left out

- The Win32 calls themselves are not modelled. Each is an answer taken from a `World`, and only the outcome is kept: a value, a failure code or a wait status.
- The `printf` output is left out, because it is I/O. This covers the command line, the exit code, both duration lines, `Error code:` and `Exception:`. The printed values are kept instead: `Stats` holds what `printStats` reports on a completed run, and each `RuntimeError` holds its `what()` text and the error code printed before the throw. When `QueryPerformanceFrequency` fails, `printStats` has already printed the exit code (sources/main.cpp:84); neither the `RuntimeError` nor the trace keeps that value.
- `GetLastError` does not appear in the trace. Its value is the `lastError` of a failed answer.
- CPU time and memory counters are left out because the source does not implement them (the `// todo` at sources/main.cpp:98).
- The `STARTUPINFO` and `PROCESS_INFORMATION` set-up is left out, and so are the arguments of `CreateProcess` other than the command line: handle inheritance, flags and environment. `INFINITE` is not represented either; the wait is one call with one answer.
- Destructors: Dafny has none. `Runner.OwnChild`, which `Run` reaches through `LaunchChild`, calls `Close` on `ht` and then on `hp` where the scope that owns them ends. This matches the reverse-construction order of C++ on every path.
- `Immovable` forbids copying and moving an `AutoHandle`. This is a compile-time rule and has no behaviour to model.
- Exceptions other than the wrapper's own `runtime_error`s are not modelled, for example a `bad_alloc` while the command is built. The distinction between the three `catch` clauses in `main` is left out too, because each of them returns 1.
- `Runner.WrapperMain` requires at least one entry in `argv`, namely the wrapper's own name. With `argc == 0`, `run(argc - 1, args + 1)` would read past the vector.
- The model does not say what a failed `QueryPerformanceCounter` writes into its output. The timer field is assumed unchanged.
- `Timing.TimerMicros` does not model a signed overflow in `end - begin`, which is undefined behaviour in C++. It does model the unsigned wrap-around of the product explicitly.
- A successful `QueryPerformanceFrequency` is taken to report a positive frequency, as Windows guarantees. The division by zero that a zero frequency would cause is therefore not modelled.
- `RunProperties.HandlesReleasedExactlyOnce` assumes that the two handles from `CreateProcess` are non-null and distinct, as Windows guarantees. `AutoHandle` itself releases nothing for a null handle.
