/** The hours/minutes/seconds split `printStats` applies to the wall time. */
module Clock {
  import opened Arithmetic

  /** A wall-clock reading `hours:minutes:seconds`. */
  datatype Hms = Hms(hours: nat, minutes: nat, seconds: nat)

  const MicrosPerSecond: nat := 1000000

  /** The split of a duration in microseconds into whole hours, minutes and seconds. */
  function HmsOf(duration: nat): Hms
  {
    var sec := duration / MicrosPerSecond;
    Hms(sec / 60 / 60, sec / 60 % 60, sec % 60)
  }

  /** `printStats`: `sec` and `min` are first totals and then reduced modulo 60 in place. */
  method SplitDuration(duration: nat) returns (hrs: nat, min: nat, sec: nat)
    ensures Hms(hrs, min, sec) == HmsOf(duration)
    ensures min < 60 && sec < 60
    ensures hrs * 3600 + min * 60 + sec == duration / MicrosPerSecond
  {
    sec := duration / 1000000;
    min := sec / 60;
    hrs := min / 60;
    sec := sec % 60;
    min := min % 60;
    HmsOfLaws(duration);
  }

  /**
   * The split is a wall-clock reading: minutes and seconds stay below 60, the
   * three parts recompose the whole seconds, and the hours are the whole hours.
   */
  lemma HmsOfLaws(duration: nat)
    ensures HmsOf(duration).minutes < 60 && HmsOf(duration).seconds < 60
    ensures HmsOf(duration).hours * 3600 + HmsOf(duration).minutes * 60 + HmsOf(duration).seconds
            == duration / MicrosPerSecond
    ensures HmsOf(duration).hours == duration / 3600000000
  {
    var sec := duration / MicrosPerSecond;
    var min := sec / 60;
    assert sec == min * 60 + sec % 60;
    assert min == min / 60 * 60 + min % 60;
    DivDiv(sec, 60, 60);
    DivDiv(duration, MicrosPerSecond, 3600);
  }

  /** Conversely, any reading with minutes and seconds below 60 that recomposes the whole seconds is the split. */
  lemma HmsOfUnique(duration: nat, h: Hms)
    requires h.minutes < 60 && h.seconds < 60
    requires h.hours * 3600 + h.minutes * 60 + h.seconds == duration / MicrosPerSecond
    ensures h == HmsOf(duration)
  {
    var sec := duration / MicrosPerSecond;
    DivModUnique(sec, 60, h.hours * 60 + h.minutes, h.seconds);
    DivModUnique(sec / 60, 60, h.hours, h.minutes);
  }
}
