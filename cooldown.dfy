/**
 * What the request limiters promise, stated on values. Time is an integer
 * count of milliseconds on a monotonic clock. A limiter holds an optional
 * deadline; a request may start once the clock has reached it, and the end
 * of every request moves the deadline to that end plus the cooldown.
 */
module Cooldown {
  import opened Wrappers

  /** One request handed to a limiter: when it asks, how late its wake-up timer fires, how long it runs. */
  datatype Request = Request(arrival: int, late: nat, took: nat)

  /** When a request ran. */
  datatype Span = Span(start: int, finish: int)

  /**
   * When a request arriving at `now` may start: at once when there is no
   * deadline or it has passed, otherwise when the timer set for the
   * deadline fires, `late` milliseconds after it.
   */
  function Admit(deadline: Option<int>, now: int, late: nat): (t: int)
    ensures t >= now
    ensures deadline.Some? ==> t >= deadline.value
    ensures t == now <==> deadline.None? || now >= deadline.value
    ensures t != now ==> t == deadline.value + late
  {
    match deadline
    case None => now
    case Some(d) => if now >= d then now else d + late
  }

  /** The deadline a limiter holds after the requests that ran in `spans`. */
  function Expiry(spans: seq<Span>, cooldown: nat): (d: Option<int>)
    ensures d.None? <==> spans == []
    ensures d.Some? ==> d.value == spans[|spans| - 1].finish + cooldown
  {
    if spans == [] then None else Some(spans[|spans| - 1].finish + cooldown)
  }

  /** Every request ends no earlier than it starts, and starts at least `cooldown` after the previous one ended. */
  predicate Spaced(spans: seq<Span>, cooldown: nat)
  {
    (forall i :: 0 <= i < |spans| ==> spans[i].start <= spans[i].finish) &&
    (forall i :: 0 < i < |spans| ==> spans[i - 1].finish + cooldown <= spans[i].start)
  }

  /** The requests served one after another by a limiter that starts with `deadline`. */
  function Schedule(deadline: Option<int>, requests: seq<Request>, cooldown: nat): (spans: seq<Span>)
    ensures |spans| == |requests|
    ensures deadline.None? && requests != [] ==> spans[0].start == requests[0].arrival
    decreases |requests|
  {
    if requests == [] then []
    else
      var start := Admit(deadline, requests[0].arrival, requests[0].late);
      var finish := start + requests[0].took;
      [Span(start, finish)] + Schedule(Some(finish + cooldown), requests[1..], cooldown)
  }

  /** A spaced log stays spaced when a request that started after the current deadline is added. */
  lemma SpacedSnoc(spans: seq<Span>, cooldown: nat, next: Span)
    requires Spaced(spans, cooldown)
    requires next.start <= next.finish
    requires Expiry(spans, cooldown).Some? ==> Expiry(spans, cooldown).value <= next.start
    ensures Spaced(spans + [next], cooldown)
  {
    var s := spans + [next];
    forall i | 0 < i < |s|
      ensures s[i - 1].finish + cooldown <= s[i].start
    {
      if i < |spans| {
        assert s[i - 1] == spans[i - 1] && s[i] == spans[i];
      }
    }
  }

  /**
   * Whatever the arrivals, timer delays and durations, a limiter keeps
   * every request at least a cooldown after the previous one, and the
   * first one waits for the deadline it started with; no request starts
   * before it arrives.
   */
  lemma {:induction false} ScheduleSpaced(deadline: Option<int>, requests: seq<Request>, cooldown: nat)
    ensures Spaced(Schedule(deadline, requests, cooldown), cooldown)
    ensures deadline.Some? && requests != [] ==> Schedule(deadline, requests, cooldown)[0].start >= deadline.value
    ensures forall i :: 0 <= i < |requests| ==> Schedule(deadline, requests, cooldown)[i].start >= requests[i].arrival
    decreases |requests|
  {
    if requests != [] {
      var spans := Schedule(deadline, requests, cooldown);
      var start := Admit(deadline, requests[0].arrival, requests[0].late);
      var finish := start + requests[0].took;
      var rest := Schedule(Some(finish + cooldown), requests[1..], cooldown);
      ScheduleSpaced(Some(finish + cooldown), requests[1..], cooldown);
      assert spans == [Span(start, finish)] + rest;
      forall i | 0 < i < |spans|
        ensures spans[i - 1].finish + cooldown <= spans[i].start
      {
        assert spans[i] == rest[i - 1];
        if i > 1 {
          assert spans[i - 1] == rest[i - 2];
        }
      }
      forall i | 0 <= i < |requests|
        ensures spans[i].start >= requests[i].arrival
      {
        if i > 0 {
          assert spans[i] == rest[i - 1] && requests[i] == requests[1..][i - 1];
        }
      }
    }
  }
}
