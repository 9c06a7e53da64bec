/** The push-to-live clock.  Wall-clock readings are arbitrary; the monotonic clock measures time. */
module Deadline {
  import opened Prelude

  const LIMIT_SECONDS := 600.0
  const ACTIVATION_SECONDS := 540.0
  const PREPARATION_SECONDS := 3600.0

  /** One reading of both clocks. */
  datatype Clock = Clock(wall: real, monotonic: real)

  /** The fields of a Deadline, with the clock at its construction. */
  datatype Terms = Terms(pushedAt: real, ends: real, cap: real, monotonicEnd: real, built: Clock)

  function Greater(a: real, b: real): real {
    if a < b then b else a
  }

  function Lesser(a: real, b: real): real {
    if a < b then a else b
  }

  /** A deadline exists only for a push that lies in the past. */
  function Start(pushedAt: real, limit: real, now: Clock): Result<Terms> {
    if !(0.0 < pushedAt <= now.wall) then Error("valid original push time required")
    else
      var ends := pushedAt + limit;
      Ok(Terms(pushedAt, ends, ends, now.monotonic + Greater(0.0, ends - now.wall), now))
  }

  /** The timeout granted to a command; an activation keeps the last minute for restoration. */
  function Remaining(d: Terms, activation: bool, now: Clock): Result<real> {
    var reserve := if activation then LIMIT_SECONDS - ACTIVATION_SECONDS else 0.0;
    var seconds := Lesser(Lesser(d.ends - now.wall - reserve, d.monotonicEnd - now.monotonic - reserve), d.cap - now.wall);
    if seconds <= 0.0 then Error("Android push-to-live deadline expired") else Ok(seconds)
  }

  /** Seconds since the push at a later monotonic instant, counted on from the construction. */
  function SincePush(d: Terms, monotonic: real): real {
    d.built.wall - d.pushedAt + (monotonic - d.built.monotonic)
  }

  /** The deadline is what its construction made it, but for a reassigned cap. */
  ghost predicate Built(d: Terms, limit: real) {
    0.0 < d.pushedAt <= d.built.wall && d == Start(d.pushedAt, limit, d.built).value.(cap := d.cap)
  }

  /**
   A granted timeout ends before the reserve, whatever the wall clock does after construction: it
   may step backwards, and it is not consulted for the bound.
   */
  lemma GrantEnds(d: Terms, limit: real, activation: bool, now: Clock)
    requires Built(d, limit) && now.monotonic >= d.built.monotonic && Remaining(d, activation, now).Ok?
    ensures SincePush(d, now.monotonic + Remaining(d, activation, now).value)
         <= limit - (if activation then LIMIT_SECONDS - ACTIVATION_SECONDS else 0.0)
    ensures SincePush(d, now.monotonic) < limit - (if activation then LIMIT_SECONDS - ACTIVATION_SECONDS else 0.0)
  {
  }
}
