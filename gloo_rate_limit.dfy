/**
 * The request limiter of src/client/gloo_rate_limit.rs, used in the
 * browser: one shared deadline slot, a `lock` that waits with a relative
 * timer for the time left until the deadline, and a guard whose drop moves the deadline one cooldown past the
 * moment the request ended. The clock and the timers are inputs: `now` is
 * the reading when a request asks, `late` how long after the requested
 * instant the timer fires, `took` how long the request runs.
 */
module GlooRateLimit {
  import opened Wrappers
  import Client
  import Cooldown

  class RateLimit {
    /** The shared slot: when the next request may start, None before the first request. */
    var deadline: Option<int>
    /** When each request served so far started and ended. */
    ghost var served: seq<Cooldown.Span>

    ghost predicate Valid()
      reads this
    {
      Cooldown.Spaced(served, Client.ReqCooldownMillis) &&
      deadline == Cooldown.Expiry(served, Client.ReqCooldownMillis)
    }

    /** `RateLimit::default()`: an empty slot, so the first request need not wait. */
    constructor ()
      ensures Valid()
      ensures deadline == None && served == []
    {
      deadline := None;
      served := [];
    }

    /**
     * `lock`: read the clock; proceed when there is no deadline or it has
     * passed, otherwise sleep for the time left until it and look again. The start
     * is the one the schedule admits, and the slot is left as it was.
     */
    method Lock(now: int, late: nat) returns (start: int)
      ensures start == Cooldown.Admit(deadline, now, late)
    {
      var clock := now;
      while true
        invariant clock == now || (deadline.Some? && now < deadline.value && clock == deadline.value + late)
        decreases if deadline.None? || clock >= deadline.value then 0 else 1
      {
        match deadline
        case None =>
          return clock;
        case Some(d) =>
          if clock >= d {
            return clock;
          }
          // sleep(deadline - now), woken `late` after that span
          clock := clock + (d - clock) + late;
      }
    }

    /** `Guard::drop`: the next request may start one cooldown after `now`. */
    method Release(now: int)
      modifies this
      ensures deadline == Some(now + Client.ReqCooldownMillis)
      ensures served == old(served)
    {
      deadline := Some(now + Client.ReqCooldownMillis);
    }

    /**
     * `check`: wait for the limiter, run the request, then release. The
     * request's own result comes back untouched, and the log grows by the
     * span the schedule gives that request, so the limiter stays spaced.
     */
    method Check<R>(now: int, late: nat, took: nat, outcome: R) returns (result: R)
      requires Valid()
      modifies this
      ensures Valid()
      ensures result == outcome
      ensures served == old(served) + Cooldown.Schedule(old(deadline), [Cooldown.Request(now, late, took)], Client.ReqCooldownMillis)
      ensures deadline.Some?
    {
      var start := Lock(now, late);
      var finish := start + took;
      result := outcome;
      Release(finish);
      Cooldown.SpacedSnoc(served, Client.ReqCooldownMillis, Cooldown.Span(start, finish));
      served := served + [Cooldown.Span(start, finish)];
    }
  }
}
