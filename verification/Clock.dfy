/** The process clock: readings never go back, and any amount of time may pass in between. */
module Clocks {
  import opened GoTime

  class Clock {
    var now: Time

    constructor (start: Time)
      ensures now == start
    {
      now := start;
    }

    /** Time goes by. */
    method Pass(passed: nat)
      modifies this
      ensures now == old(now) + passed
    {
      now := now + passed;
    }

    method Now() returns (t: Time)
      modifies this
      ensures old(now) <= t == now
    {
      var passed: int := *;
      if passed > 0 {
        now := now + passed;
      }
      t := now;
    }
  }
}
