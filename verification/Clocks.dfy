/** The wall clock, read one time at a time. */
module Clocks {
  import opened Types

  const SECONDS_PER_HOUR := 3600

  /** The hour a moment falls in, counted like the moment itself from the epoch. */
  function HourOf(seconds: int): (hour: Hour)
    ensures hour * 3600 <= seconds < (hour + 1) * 3600
  {
    seconds / SECONDS_PER_HOUR
  }

  class Clock {
    // What each reading shows, in seconds; the outside world decides.
    const readings: nat -> int
    var looks: nat

    constructor (readings: nat -> int)
      ensures this.readings == readings && looks == 0
    {
      this.readings, looks := readings, 0;
    }

    /** The hour shown by reading `n`. */
    function HourAt(n: nat): Hour {
      HourOf(readings(n))
    }

    /** The hours of `k` readings from `first` on. */
    ghost function Hours(first: nat, k: nat): (hours: seq<Hour>)
      ensures |hours| == k
    {
      if k == 0 then [] else Hours(first, k - 1) + [HourAt(first + k - 1)]
    }

    /** All readings from `lo` up to before `hi` fall in the hour `hour`. */
    ghost predicate Within(hour: Hour, lo: nat, hi: nat) {
      forall n | lo <= n < hi :: HourAt(n) == hour
    }

    lemma {:induction false} HoursWithin(hour: Hour, first: nat, k: nat)
      requires Within(hour, first, first + k)
      ensures forall i | 0 <= i < k :: Hours(first, k)[i] == hour
    {
      if k == 0 {
      } else {
        HoursWithin(hour, first, k - 1);
      }
    }

    method Now() returns (seconds: int)
      modifies this
      ensures seconds == readings(old(looks)) && looks == old(looks) + 1
    {
      seconds := readings(looks);
      looks := looks + 1;
    }
  }
}
