/** `RealTimer`: the wall time of the child, read from the performance counter. */
module Timing {
  import opened Wrappers
  import opened Win32
  import opened Arithmetic

  const Modulus64: nat := 0x1_0000_0000_0000_0000

  /** Conversion of an integer to `std::uint64_t`: reduction modulo 2^64. */
  function U64(x: int): UInt64
  {
    x % Modulus64
  }

  /**
   * `std::uint64_t(1000000) * (end - begin) / freq`: the difference is
   * converted to unsigned, the product wraps modulo 2^64, and the positive
   * frequency then divides it.
   */
  function TimerMicros(begin: Int64, end: Int64, freq: Frequency): UInt64
  {
    U64(1000000 * U64(end - begin)) / freq
  }

  /** Without wrap-around, the timer's value is the elapsed ticks scaled to microseconds. */
  lemma TimerMicrosExact(begin: Int64, end: Int64, freq: Frequency)
    requires begin <= end && 1000000 * (end - begin) < Modulus64
    ensures TimerMicros(begin, end, freq) == 1000000 * (end - begin) / freq
  {
    assert U64(end - begin) == end - begin;
    assert U64(1000000 * (end - begin)) == 1000000 * (end - begin);
  }

  /** No ticks elapsed, no time elapsed. */
  lemma TimerMicrosZero(begin: Int64, freq: Frequency)
    ensures TimerMicros(begin, begin, freq) == 0
  {
  }

  /** Without wrap-around, a later end never gives a shorter duration. */
  lemma TimerMicrosMonotone(begin: Int64, end1: Int64, end2: Int64, freq: Frequency)
    requires begin <= end1 <= end2 && 1000000 * (end2 - begin) < Modulus64
    ensures TimerMicros(begin, end1, freq) <= TimerMicros(begin, end2, freq)
  {
    TimerMicrosExact(begin, end1, freq);
    TimerMicrosExact(begin, end2, freq);
    DivMonotone(1000000 * (end1 - begin), 1000000 * (end2 - begin), freq);
  }

  /**
   * A counter that went back `d` ticks does not give a negative duration: the
   * difference wraps to 2^64 - d, and the scaled product to 2^64 - 1000000 * d,
   * a huge duration, as long as that product fits in one wrap.
   */
  lemma TimerMicrosBackwards(begin: Int64, end: Int64, freq: Frequency)
    requires end < begin && 1000000 * (begin - end) <= Modulus64
    ensures TimerMicros(begin, end, freq) == (Modulus64 - 1000000 * (begin - end)) % Modulus64 / freq
  {
    var d := begin - end;
    DivModUnique(end - begin, Modulus64, -1, Modulus64 - d);
    assert U64(end - begin) == Modulus64 - d;
    var t := (Modulus64 - 1000000 * d) % Modulus64;
    if 1000000 * d < Modulus64 {
      DivModUnique(Modulus64 - 1000000 * d, Modulus64, 0, Modulus64 - 1000000 * d);
    } else {
      DivModUnique(Modulus64 - 1000000 * d, Modulus64, 0, 0);
    }
    DivModUnique(1000000 * (Modulus64 - d), Modulus64, 999999, t);
  }

  const CounterFailedMessage := "QueryPerformanceCounter failed"
  const FrequencyFailedMessage := "QueryPerformanceFrequency failed"

  /** The error `start` and `stop` throw. */
  function CounterFailed(code: UInt32): RuntimeError
  {
    CallFailed(CounterFailedMessage, code)
  }

  /** The error `duration` throws. */
  function FrequencyFailed(code: UInt32): RuntimeError
  {
    CallFailed(FrequencyFailedMessage, code)
  }

  class RealTimer {
    var begin: Int64
    var end: Int64

    /** `LARGE_INTEGER begin = {}, end = {}`. */
    constructor ()
      ensures begin == 0 && end == 0
    {
      begin, end := 0, 0;
    }

    /** Reads the counter into `begin`, or throws when the query fails. */
    method Start(os: Os) returns (r: Outcome<RuntimeError>)
      modifies this`begin, os
      ensures os.trace == old(os.trace) + [QueryCounter]
      ensures match old(os.CounterAnswer())
              case Ok(v) => r == Pass && begin == v
              case Failed(e) => r == Fail(CounterFailed(e)) && begin == old(begin)
    {
      var a := os.QueryPerformanceCounter();
      match a
      case Ok(v) => { begin := v; r := Pass; }
      case Failed(e) => { r := Fail(CounterFailed(e)); }
    }

    /** Reads the counter into `end`, or throws when the query fails. */
    method Stop(os: Os) returns (r: Outcome<RuntimeError>)
      modifies this`end, os
      ensures os.trace == old(os.trace) + [QueryCounter]
      ensures match old(os.CounterAnswer())
              case Ok(v) => r == Pass && end == v
              case Failed(e) => r == Fail(CounterFailed(e)) && end == old(end)
    {
      var a := os.QueryPerformanceCounter();
      match a
      case Ok(v) => { end := v; r := Pass; }
      case Failed(e) => { r := Fail(CounterFailed(e)); }
    }

    /** The elapsed time in microseconds, or throws when the frequency query fails. */
    method Duration(os: Os) returns (r: Result<UInt64, RuntimeError>)
      modifies os
      ensures os.trace == old(os.trace) + [QueryFrequency]
      ensures match os.world.frequency
              case Ok(f) => r == Success(TimerMicros(begin, end, f))
              case Failed(e) => r == Failure(FrequencyFailed(e))
    {
      var a := os.QueryPerformanceFrequency();
      match a
      case Ok(f) => { r := Success(TimerMicros(begin, end, f)); }
      case Failed(e) => { r := Failure(FrequencyFailed(e)); }
    }
  }
}
