/** What every execution of `run` does, stated of `Plan` for every answer the operating system can give. */
module RunProperties {
  import opened Wrappers
  import opened Win32
  import opened CommandLine
  import opened Clock
  import opened Timing
  import opened Handles
  import opened Runner

  /** The calls of a complete run, in the only order they can happen, before the handles are released. */
  function Stages(cmd: string, pi: ProcessInformation): seq<Call>
  {
    [QueryCounter, Create(cmd), Wait(pi.hProcess), QueryCounter, GetExitCode(pi.hProcess), QueryFrequency]
  }

  /** The child's handles if `CreateProcess` succeeds, the null pair otherwise. */
  function Child(w: World): ProcessInformation
  {
    if w.create.Ok? then w.create.value else ProcessInformation(0, 0)
  }

  /** The message `run` throws with when the stage that makes call `c` fails; a `Close` is never a stage. */
  function StageFailure(c: Call): string
    requires !c.Close?
  {
    match c
    case QueryCounter => CounterFailedMessage
    case QueryFrequency => FrequencyFailedMessage
    case Create(_) => CreateFailedMessage
    case Wait(_) => WaitFailed.what
    case GetExitCode(_) => ExitCodeFailedMessage
  }

  /**
   * The stage at which a run with a program name stops: the first whose
   * operating-system answer is a failure, or the sixth, the frequency query,
   * once all earlier ones have succeeded.
   */
  function FirstFailing(w: World): nat
  {
    if w.firstCounter.Failed? then 1
    else if w.create.Failed? then 2
    else if w.wait != WAIT_OBJECT_0 then 3
    else if w.laterCounter.Failed? then 4
    else if w.exitCode.Failed? then 5
    else 6
  }

  /** Without a program name, `run` throws "No program name." and makes no call at all; with one, it always calls. */
  lemma NoCallWithoutProgramName(args: seq<string>, w: World)
    ensures Plan(args, w).calls == [] <==> |args| == 0
    ensures Plan(args, w).result == Failure(NoProgramName) <==> |args| == 0
  {
    if |args| > 0 {
      assert Plan(args, w).calls[0] == QueryCounter;
      assert Plan(args, w).result.Success? || Plan(args, w).result.error.what != NoProgramName.what;
    }
  }

  /**
   * The run made exactly the first `k` stages, in their fixed order, then
   * released the handles if the child existed; it succeeded only if all six
   * stages were made, and otherwise threw with the message of stage `k`, the one
   * that failed.
   */
  predicate StoppedAfter(args: seq<string>, w: World, k: nat)
    requires |args| > 0
  {
    var ex, st := Plan(args, w), Stages(Join(args), Child(w));
    1 <= k <= 6 &&
    ex.calls == st[..k] + (if k >= 3 then Release(Child(w)) else []) &&
    (ex.result.Success? ==> k == 6) &&
    (ex.result.Failure? ==> ex.result.error.what == StageFailure(st[k - 1]))
  }

  /**
   * Every run with a program name makes the stages in order up to the first
   * one whose call fails, and none after it: a failing stage stops all later ones.
   */
  lemma StagesRunInOrder(args: seq<string>, w: World)
    requires |args| > 0
    ensures StoppedAfter(args, w, FirstFailing(w))
  {
    var ex, st := Plan(args, w), Stages(Join(args), Child(w));
    if w.firstCounter.Failed? {
      assert ex.calls == st[..1];
      assert StoppedAfter(args, w, 1);
    } else if w.create.Failed? {
      assert ex.calls == [QueryCounter] + [Create(Join(args))];
      assert ex.calls == st[..2];
      assert StoppedAfter(args, w, 2);
    } else {
      var k := StagesAfterCreate(args, w);
    }
  }

  /** Once the child exists, the run stops at the first failing stage from the wait on. */
  lemma StagesAfterCreate(args: seq<string>, w: World) returns (k: nat)
    requires |args| > 0 && w.firstCounter.Ok? && w.create.Ok?
    ensures k == FirstFailing(w) && k >= 3
    ensures StoppedAfter(args, w, k)
  {
    var ex, st := Plan(args, w), Stages(Join(args), Child(w));
    var pi := w.create.value;
    var rest := Supervise(pi, w.firstCounter.value, w);
    CreatedCalls(args, w);
    k := FirstFailing(w);
    SuperviseStages(pi, w.firstCounter.value, w, Join(args), k);
    assert st[..2] + st[2..k] == st[..k];
    assert ex.calls == st[..k] + Release(pi);
  }

  /** Supervising the child makes the stages from the wait to stage `k`, and fails at stage `k` unless all six were made. */
  lemma SuperviseStages(pi: ProcessInformation, begin: Int64, w: World, cmd: string, k: nat)
    requires w.firstCounter.Ok? && w.create == Ok(pi) && k == FirstFailing(w)
    ensures Supervise(pi, begin, w).calls == Stages(cmd, pi)[2..k]
    ensures Supervise(pi, begin, w).result.Success? ==> k == 6
    ensures Supervise(pi, begin, w).result.Failure? ==>
      Supervise(pi, begin, w).result.error.what == StageFailure(Stages(cmd, pi)[k - 1])
  {
  }

  /** No call but a `Close` releases a handle. */
  predicate ClosesNothing(calls: seq<Call>) {
    forall i :: 0 <= i < |calls| ==> !calls[i].Close?
  }

  /** A run that created the child made the calls up to `CreateProcess`, supervised the child, and released it. */
  lemma CreatedCalls(args: seq<string>, w: World)
    requires |args| > 0 && w.firstCounter.Ok? && w.create.Ok?
    ensures Plan(args, w).calls ==
      [QueryCounter, Create(Join(args))] + Supervise(w.create.value, w.firstCounter.value, w).calls + Release(w.create.value)
  {
    var cmd, pi := Join(args), w.create.value;
    var rest := Supervise(pi, w.firstCounter.value, w).calls;
    var launched := Launch(cmd, w.firstCounter.value, w);
    assert Plan(args, w).calls == [QueryCounter] + launched.calls;
    assert launched.calls == [Create(cmd)] + rest + Release(pi);
    ConsTwo(QueryCounter, Create(cmd), rest, Release(pi));
  }

  lemma ConsTwo(a: Call, b: Call, x: seq<Call>, y: seq<Call>)
    ensures [a] + ([b] + x + y) == [a, b] + x + y
  {
  }

  /**
   * Once `CreateProcess` has succeeded, each of the child's two handles is
   * closed exactly once, thread first, as the last two calls of the run, on
   * every path out of `run`.
   */
  lemma HandlesReleasedExactlyOnce(args: seq<string>, w: World)
    requires WellFormed(w)
    requires |args| > 0 && w.firstCounter.Ok? && w.create.Ok?
    ensures var calls, pi := Plan(args, w).calls, w.create.value;
      |calls| >= 2 && calls[|calls| - 2..] == [Close(pi.hThread), Close(pi.hProcess)] &&
      multiset(calls)[Close(pi.hProcess)] == 1 && multiset(calls)[Close(pi.hThread)] == 1 &&
      ClosesNothing(calls[..|calls| - 2])
  {
    var pi := w.create.value;
    var body := [QueryCounter, Create(Join(args))] + Supervise(pi, w.firstCounter.value, w).calls;
    CreatedCalls(args, w);
    SuperviseClosesNothing(pi, w.firstCounter.value, w);
    assert ClosesNothing(body);
    ReleasedLast(body, pi.hProcess, pi.hThread);
  }

  /** If `CreateProcess` was never reached or failed, `run` closes nothing. */
  lemma NothingClosedWithoutChild(args: seq<string>, w: World)
    requires !(|args| > 0 && w.firstCounter.Ok? && w.create.Ok?)
    ensures ClosesNothing(Plan(args, w).calls)
  {
  }

  lemma SuperviseClosesNothing(pi: ProcessInformation, begin: Int64, w: World)
    ensures ClosesNothing(Supervise(pi, begin, w).calls)
  {
  }

  lemma ReleasedLast(body: seq<Call>, hp: Handle, ht: Handle)
    requires ClosesNothing(body) && hp != 0 && ht != 0 && hp != ht
    ensures var calls := body + Release(ProcessInformation(hp, ht));
      |calls| >= 2 && calls[|calls| - 2..] == [Close(ht), Close(hp)] &&
      multiset(calls)[Close(hp)] == 1 && multiset(calls)[Close(ht)] == 1 &&
      ClosesNothing(calls[..|calls| - 2])
  {
    var calls := body + Release(ProcessInformation(hp, ht));
    assert calls == body + [Close(ht), Close(hp)];
    assert Close(hp) !in body && Close(ht) !in body;
    assert multiset(calls) == multiset(body) + multiset{Close(ht), Close(hp)};
    assert calls[..|calls| - 2] == body;
  }

  /** `run` completes exactly when a program is named and every call it makes succeeds. */
  lemma RunSucceedsIff(args: seq<string>, w: World)
    ensures Plan(args, w).result.Success? <==>
      |args| > 0 && w.firstCounter.Ok? && w.create.Ok? && w.wait == WAIT_OBJECT_0 &&
      w.laterCounter.Ok? && w.exitCode.Ok? && w.frequency.Ok?
  {
  }

  /**
   * A completed run reports the exit code the child left and the counter
   * difference scaled to microseconds, split into a valid wall-clock reading.
   */
  lemma SuccessReportsChild(args: seq<string>, w: World)
    requires Plan(args, w).result.Success?
    ensures var stats := Plan(args, w).result.value;
      var us := TimerMicros(w.firstCounter.value, w.laterCounter.value, w.frequency.value);
      stats.exitCode == w.exitCode.value && stats.wallMicros == us &&
      stats.wallClock.minutes < 60 && stats.wallClock.seconds < 60 &&
      stats.wallClock.hours * 3600 + stats.wallClock.minutes * 60 + stats.wallClock.seconds == us / MicrosPerSecond
  {
    RunSucceedsIff(args, w);
    HmsOfLaws(TimerMicros(w.firstCounter.value, w.laterCounter.value, w.frequency.value));
  }

  /**
   * `main` returns 0 whatever exit code the child left: its return code does
   * not depend on the child's exit code.
   */
  lemma ExitStatusIgnoresChild(args: seq<string>, w: World, code: UInt32)
    requires w.exitCode.Ok?
    ensures Plan(args, w).result.Success? == Plan(args, w.(exitCode := Ok(code))).result.Success?
  {
    RunSucceedsIff(args, w);
    RunSucceedsIff(args, w.(exitCode := Ok(code)));
  }
}
