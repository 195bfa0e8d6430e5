/** The log throttle: one record per interval is let through, the others are counted. */
module LogThrottle {
  import opened Domain

  /** The throttle's fields between two calls. */
  datatype Gate = Gate(last: Option<real>, suppressed: nat)

  predicate Swallows(g: Gate, interval: real, now: real) { g.last.Some? && now - g.last.value < interval }

  function Next(g: Gate, interval: real, now: real): Gate {
    if Swallows(g, interval, now) then Gate(g.last, g.suppressed + 1) else Gate(Some(now), 0)
  }

  function Answer(g: Gate, interval: real, now: real): Option<nat> {
    if Swallows(g, interval, now) then None else Some(g.suppressed)
  }

  class Throttle {
    const interval: real
    var last: Option<real>
    var suppressed: nat

    ghost var calls: seq<real>

    /** The fields are what the calls so far make of them. */
    ghost predicate Valid() reads this { Gate(last, suppressed) == After(interval, calls) }

    constructor (intervalSeconds: real)
      ensures Valid() && interval == intervalSeconds && calls == []
    {
      interval := intervalSeconds;
      last := None;
      suppressed := 0;
      calls := [];
    }

    /** One call at time `now`: a count lets it through, None swallows it. */
    method Allow(now: real) returns (r: Option<nat>)
      requires Valid()
      modifies this
      ensures Valid() && calls == old(calls) + [now]
      ensures r.None? <==> old(last).Some? && now - old(last).value < interval
      ensures r.None? ==> last == old(last) && suppressed == old(suppressed) + 1
      ensures r.Some? ==> r.value == old(suppressed) && last == Some(now) && suppressed == 0
      ensures r.Some? <==> Passed(interval, calls) == Passed(interval, old(calls)) + [now]
      ensures r.None? <==> Passed(interval, calls) == Passed(interval, old(calls))
      ensures Reported(interval, calls) == Reported(interval, old(calls)) + (if r.Some? then r.value else 0)
    {
      assert (calls + [now])[..|calls|] == calls;
      calls := calls + [now];
      if last.Some? && now - last.value < interval {
        suppressed := suppressed + 1;
        return None;
      }
      r := Some(suppressed);
      suppressed, last := 0, Some(now);
    }
  }

  // --- whole call sequences ------------------------------------------------------------

  /** The throttle after calls at these times. */
  function After(interval: real, times: seq<real>): Gate {
    if times == [] then Gate(None, 0)
    else Next(After(interval, times[..|times| - 1]), interval, times[|times| - 1])
  }

  /** The times of the calls let through. */
  function Passed(interval: real, times: seq<real>): seq<real> {
    if times == [] then []
    else
      var front, now := times[..|times| - 1], times[|times| - 1];
      if Swallows(After(interval, front), interval, now) then Passed(interval, front)
      else Passed(interval, front) + [now]
  }

  /** The sum of the suppressed counts handed back. */
  function Reported(interval: real, times: seq<real>): nat {
    if times == [] then 0
    else
      var front, now := times[..|times| - 1], times[|times| - 1];
      var r := Answer(After(interval, front), interval, now);
      Reported(interval, front) + if r.Some? then r.value else 0
  }

  /** Every call is let through, reported as suppressed later, or still pending. */
  lemma {:induction false} NothingIsLost(interval: real, times: seq<real>)
    ensures |times| == |Passed(interval, times)| + Reported(interval, times) + After(interval, times).suppressed
  {
    if times != [] {
      NothingIsLost(interval, times[..|times| - 1]);
    }
  }

  ghost predicate NonDecreasing(times: seq<real>) { forall i, j | 0 <= i <= j < |times| :: times[i] <= times[j] }

  ghost predicate Spaced(interval: real, p: seq<real>) { forall i | 0 <= i < |p| - 1 :: p[i + 1] - p[i] >= interval }

  /** The gate remembers the last call let through, and calls let through are in order and an interval apart. */
  lemma {:induction false} PassesAreSpaced(interval: real, times: seq<real>)
    ensures var p := Passed(interval, times);
      && After(interval, times).last == (if p == [] then None else Some(p[|p| - 1]))
      && (times != [] ==> p != [] && p[0] == times[0])
      && Spaced(interval, p)
      && (p != [] ==> p[|p| - 1] in times)
  {
    if times != [] {
      PassesAreSpaced(interval, times[..|times| - 1]);
    }
  }

  lemma {:induction false} SpacedSpan(interval: real, p: seq<real>, a: nat, b: nat)
    requires a <= b < |p| && Spaced(interval, p)
    ensures (b - a) as real * interval <= p[b] - p[a]
    decreases b
  {
    if a < b {
      SpacedSpan(interval, p, a, b - 1);
      assert (b - a) as real == (b - 1 - a) as real + 1.0;
    }
  }

  lemma AtMost(n: nat, interval: real, first: real, last: real)
    requires interval > 0.0 && n as real * interval <= last - first
    ensures (n + 1) as real <= (last - first) / interval + 1.0
  {
    var q := (last - first) / interval;
    assert n as real * interval <= q * interval;
    assert (n + 1) as real == n as real + 1.0;
  }

  /** How many of `p` lie from its `a`-th to its `b`-th entry, over a span reaching at least that far. */
  lemma SpacedCount(interval: real, p: seq<real>, a: nat, b: nat, first: real, last: real)
    requires interval > 0.0 && Spaced(interval, p) && a <= b < |p| && first <= p[a] && p[b] <= last
    ensures (b - a + 1) as real <= (last - first) / interval + 1.0
  {
    SpacedSpan(interval, p, a, b);
    AtMost(b - a, interval, first, last);
  }

  /** From one record let through to a later one, a time T apart, there are at most T / interval + 1. */
  lemma WindowBoundsPasses(interval: real, times: seq<real>, a: nat, b: nat)
    requires interval > 0.0 && a <= b < |Passed(interval, times)|
    ensures var p := Passed(interval, times); (b - a + 1) as real <= (p[b] - p[a]) / interval + 1.0
  {
    var p := Passed(interval, times);
    PassesAreSpaced(interval, times);
    SpacedCount(interval, p, a, b, p[a], p[b]);
  }

  /** With a clock that never goes back, all calls within a span T let at most T / interval + 1 through. */
  lemma SpanBoundsPasses(interval: real, times: seq<real>)
    requires interval > 0.0 && times != [] && NonDecreasing(times)
    ensures |Passed(interval, times)| as real <= (times[|times| - 1] - times[0]) / interval + 1.0
  {
    var p := Passed(interval, times);
    PassesAreSpaced(interval, times);
    SpacedCount(interval, p, 0, |p| - 1, times[0], times[|times| - 1]);
  }
}
