// The window policies of internal/window/policy.go. Instants are nanoseconds
// counted from 0000-01-01T00:00:00Z.
module Window {
  import opened Common

  const HOUR := 3_600_000_000_000

  // time.Duration(hours) * time.Hour is a 64-bit product and may wrap.
  function HoursDuration(hours: int): int {
    Wrap64(hours * HOUR)
  }

  function Deadline(at: int, windowHours: int): int {
    at + HoursDuration(windowHours)
  }

  // BackfillPolicy.Expired and EscalationPolicy.Stale are the same comparison.
  predicate Expired(at: int, windowHours: int, now: int) {
    now > Deadline(at, windowHours)
  }

  // The half-open boundary the policy promises, and the exact window sizes for
  // which the 64-bit product still delivers it at every instant.
  lemma ExpiredIsElapsedOverWindow(windowHours: int)
    ensures (forall at, now :: Expired(at, windowHours, now) <==> now - at > windowHours * HOUR)
            <==> -2_562_047 <= windowHours <= 2_562_047
  {
    var d := windowHours * HOUR;
    if -2_562_047 <= windowHours <= 2_562_047 {
      assert HoursDuration(windowHours) == d;
    } else {
      assert HoursDuration(windowHours) != d;
      assert Expired(0, windowHours, Min(d, HoursDuration(windowHours)) + 1)
        != (Min(d, HoursDuration(windowHours)) + 1 - 0 > d)
        || Expired(0, windowHours, d) != (d - 0 > d)
        || Expired(0, windowHours, d + 1) != (d + 1 - 0 > d);
    }
  }
}
