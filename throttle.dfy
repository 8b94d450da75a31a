/**
  The capture throttle: a hard minimum interval between two captures.
 */
module Throttle {

  /** The source computes `(now - last) / 1000` seconds and skips while that
      is below the minimum; on integer milliseconds that is the comparison
      below. `last == 0` stands for "never". */
  function CaptureAllowed(now: int, last: int, minSeconds: int): (allowed: bool)
    ensures allowed <==> now >= last + minSeconds * 1000
    ensures minSeconds <= 0 && now >= last ==> allowed
  {
    !(now - last < minSeconds * 1000)
  }

  /** The millisecond test agrees with the source's test in seconds. */
  lemma GateInSeconds(now: int, last: int, minSeconds: int)
    ensures CaptureAllowed(now, last, minSeconds)
        <==> !(((now - last) as real) / 1000.0 < minSeconds as real)
  {
  }

  /** Once the interval has passed, the gate stays open until the next capture. */
  lemma GateStaysOpen(now: int, later: int, last: int, minSeconds: int)
    requires now <= later && CaptureAllowed(now, last, minSeconds)
    ensures CaptureAllowed(later, last, minSeconds)
  {
  }

  /** With the default 120 seconds, a request 60 seconds after a capture is
      refused and one 130 seconds after it goes through. */
  lemma DefaultInterval(t: int)
    ensures !CaptureAllowed(t + 60000, t, 120)
    ensures CaptureAllowed(t + 130000, t, 120)
  {
  }
}
