/** The route aggregator: the running totals of src/App.js:61-71, the
    kilometre conversion of line 74 and the hours/minutes split of lines
    77-78. Distances are whole meters; times are JavaScript numbers, modelled
    as reals, which assumes exact (not floating-point) arithmetic. */
module Aggregator {
  import opened RouteData

  /** `(endTime - startTime) / 1000`: a segment's span in seconds. A span that
      ends before it starts is negative: nothing clamps it. */
  function DurationSeconds(seg: Segment): (d: real)
    ensures d * 1000.0 == (seg.end.time - seg.start.time) as real
    ensures d < 0.0 <==> seg.end.time < seg.start.time
  {
    (seg.end.time - seg.start.time) as real / 1000.0
  }

  /** Sum of the segments' distances, folded left to right. */
  function SumDistance(s: seq<Segment>): int {
    if s == [] then 0 else SumDistance(s[..|s| - 1]) + s[|s| - 1].distance
  }

  /** Sum of the segments' spans in seconds, folded left to right. */
  function SumSeconds(s: seq<Segment>): real {
    if s == [] then 0.0 else SumSeconds(s[..|s| - 1]) + DurationSeconds(s[|s| - 1])
  }

  /** Sum of the segments' spans in whole milliseconds. */
  function SumMillis(s: seq<Segment>): int {
    if s == [] then 0 else SumMillis(s[..|s| - 1]) + (s[|s| - 1].end.time - s[|s| - 1].start.time)
  }

  /** The `forEach` of src/App.js:64-71: accumulates `totalDistance` and
      `totalTimeInSeconds` over the kept segments. */
  method Accumulate(routes: seq<Segment>) returns (totalDistance: int, totalTimeInSeconds: real)
    ensures totalDistance == SumDistance(routes)
    ensures totalTimeInSeconds == SumSeconds(routes)
  {
    totalDistance := 0;
    totalTimeInSeconds := 0.0;
    for k := 0 to |routes|
      invariant totalDistance == SumDistance(routes[..k])
      invariant totalTimeInSeconds == SumSeconds(routes[..k])
    {
      var route := routes[k];
      assert routes[..k + 1][..k] == routes[..k];
      totalDistance := totalDistance + route.distance;
      var startTime := route.start.time;
      var endTime := route.end.time;
      var durationInSeconds := (endTime - startTime) as real / 1000.0;
      totalTimeInSeconds := totalTimeInSeconds + durationInSeconds;
    }
    assert routes[..|routes|] == routes;
  }

  /** The distance total splits over any partition of the segments into a
      leading and a trailing chunk. */
  lemma {:induction false} SumDistanceAppend(a: seq<Segment>, b: seq<Segment>)
    ensures SumDistance(a + b) == SumDistance(a) + SumDistance(b)
  {
    if b == [] {
      assert a + b == a;
    } else {
      assert (a + b)[..|a + b| - 1] == a + b[..|b| - 1];
      SumDistanceAppend(a, b[..|b| - 1]);
    }
  }

  /** The duration total splits over any partition the same way. */
  lemma {:induction false} SumSecondsAppend(a: seq<Segment>, b: seq<Segment>)
    ensures SumSeconds(a + b) == SumSeconds(a) + SumSeconds(b)
  {
    if b == [] {
      assert a + b == a;
    } else {
      assert (a + b)[..|a + b| - 1] == a + b[..|b| - 1];
      SumSecondsAppend(a, b[..|b| - 1]);
    }
  }

  /** Neither total depends on the order of the two chunks. */
  lemma TotalsCommute(a: seq<Segment>, b: seq<Segment>)
    ensures SumDistance(a + b) == SumDistance(b + a)
    ensures SumSeconds(a + b) == SumSeconds(b + a)
  {
    SumDistanceAppend(a, b);
    SumDistanceAppend(b, a);
    SumSecondsAppend(a, b);
    SumSecondsAppend(b, a);
  }

  /** Summing seconds per segment equals converting the summed milliseconds
      once. */
  lemma {:induction false} SumSecondsIsMillis(s: seq<Segment>)
    ensures SumSeconds(s) * 1000.0 == SumMillis(s) as real
  {
    if s != [] {
      SumSecondsIsMillis(s[..|s| - 1]);
    }
  }

  /** `totalDistance / 1000`: meters to kilometres, without rounding. */
  function Km(meters: int): (km: real)
    ensures km * 1000.0 == meters as real
  {
    meters as real / 1000.0
  }

  lemma KmAdditive(a: seq<Segment>, b: seq<Segment>)
    ensures Km(SumDistance(a + b)) == Km(SumDistance(a)) + Km(SumDistance(b))
  {
    SumDistanceAppend(a, b);
  }

  /** Truncation toward zero: the quotient JavaScript's `%` uses. */
  function Trunc(x: real): (t: int)
    ensures 0.0 <= x ==> t as real <= x < t as real + 1.0
    ensures x < 0.0 ==> t as real - 1.0 < x <= t as real
  {
    if x >= 0.0 then x.Floor else -((-x).Floor)
  }

  /** JavaScript's `seconds % 3600` on numbers: the remainder of the
      division truncated toward zero, so it takes the sign of the dividend
      (Dafny's own `%` is Euclidean). */
  function HourRemainder(seconds: real): (r: real)
    ensures 0.0 <= seconds ==> 0.0 <= r < 3600.0
    ensures seconds < 0.0 ==> -3600.0 < r <= 0.0
    ensures seconds - r == 3600.0 * Trunc(seconds / 3600.0) as real
  {
    seconds - 3600.0 * Trunc(seconds / 3600.0) as real
  }

  /** `Math.floor(totalTimeInSeconds / 3600)`. */
  function Hours(seconds: real): (h: int)
    ensures h as real <= seconds / 3600.0 < h as real + 1.0
  {
    (seconds / 3600.0).Floor
  }

  /** `Math.floor((totalTimeInSeconds % 3600) / 60)`. */
  function Minutes(seconds: real): (m: int)
    ensures m as real <= HourRemainder(seconds) / 60.0 < m as real + 1.0
  {
    (HourRemainder(seconds) / 60.0).Floor
  }

  /** For a non-negative total the remainder is the Euclidean one. */
  lemma RemainderOfNonNegative(seconds: real)
    requires seconds >= 0.0
    ensures HourRemainder(seconds) == seconds - 3600.0 * Hours(seconds) as real
    ensures 0.0 <= HourRemainder(seconds) < 3600.0
  {
  }

  /** For a non-negative total, the hours and minutes are the whole hours and
      the whole minutes left over: what remains is less than a minute. */
  lemma DecompositionBounds(seconds: real)
    requires seconds >= 0.0
    ensures Hours(seconds) >= 0
    ensures 0 <= Minutes(seconds) < 60
    ensures (Hours(seconds) * 3600 + Minutes(seconds) * 60) as real <= seconds
    ensures seconds < (Hours(seconds) * 3600 + (Minutes(seconds) + 1) * 60) as real
  {
  }

  /** The hours and minutes are determined by the whole milliseconds: for a
      non-negative total `ms` they are `ms` divided by an hour and the
      remainder divided by a minute. */
  lemma DecompositionOfMillis(ms: int)
    requires ms >= 0
    ensures Hours(ms as real / 1000.0) == ms / 3_600_000
    ensures Minutes(ms as real / 1000.0) == (ms % 3_600_000) / 60_000
  {
  }

  /** A negative total gives a negative hour count and a minute count
      between -60 and 0, because the JavaScript remainder keeps the sign
      of the dividend. */
  lemma NegativeDecomposition(seconds: real)
    requires seconds < 0.0
    ensures Hours(seconds) < 0
    ensures -60 <= Minutes(seconds) <= 0
  {
  }
}
